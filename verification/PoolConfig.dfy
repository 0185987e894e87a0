/** Resolving the configured runner pools into the configurations the listeners
    run with, and the labels each of them advertises. Labels and names are
    compared with the ASCII letters folded. Judgements about secrets, URLs and
    the Windows account are taken from outside. */
module PoolConfig {
  import opened Common

  datatype Pool = Pool(name: string, vmSize: string, maxRunners: int, priority: string, labels: seq<string>,
                       osDiskTier: string, enabled: Option<bool>, imageID: string, osType: string)

  datatype Config = Config(
    pools: seq<Pool>,
    registrationURL: string, scaleSetName: string, runnerGroup: string, labels: seq<string>,
    minRunners: int, maxRunners: int,
    subscriptionID: string, resourceGroup: string, location: string, subnetID: string,
    vmSize: string, imageID: string, osType: string, vmAdminUser: string, sshKey: string, priority: string,
    runnerVersion: string, runnerSHA256: string, windowsRunnerSHA256: string,
    osDiskSize: int, osDiskTier: string,
    concurrency: int, reconcileSeconds: int, idleSeconds: int, maxAgeSeconds: int)

  /** Checks whose inside is not modelled. */
  datatype Judge = Judge(registrationURL: string -> bool, windowsInputs: (string, string) -> bool, gitHubApp: bool)

  datatype Problem =
    | BadOSType | NeedsImage | BadWindowsInputs | NeedsSSHKey | BadURL | NeedsName | NeedsGroup
    | EmptyLabel | ConflictingOSLabel | NoProfileLabel | BadApp | BadMinimum | BadMaximum | MissingSetting
    | BadPriority | BadDisk | BadWindowsProfile | BadConcurrency | BadInterval | BadIdleTimeout | BadMaxAge
    | BadPoolName | BadPoolSize | RepeatedLabel | NothingEnabled

  const DEFAULT_WINDOWS_SHA := "1150692afa94e71f872017e254ea55b6eece1eece3fe7e3a6d4c93d0a1b85cfc"
  const MAX_INT32 := 0x7fff_ffff

  // ---- One configuration ---------------------------------------------------

  predicate EqualFold(a: string, b: string) {
    Lower(a) == Lower(b)
  }

  predicate IsOperatingSystemLabel(text: string) {
    EqualFold(text, "Linux") || EqualFold(text, "Windows") || EqualFold(text, "macOS")
  }

  function OperatingSystemLabel(c: Config): string {
    if c.osType == "Windows" then "Windows" else "Linux"
  }

  function TierSize(tier: string): Option<int> {
    match tier
    case "P10" => Some(128)
    case "P15" => Some(256)
    case "P20" => Some(512)
    case "P30" => Some(1024)
    case _ => None
  }

  predicate Holds(capacity: Option<int>, size: int) {
    capacity.Some? && size <= capacity.value
  }

  /** A tier sets the size of the disk, which is never smaller than what was asked. */
  function EffectiveOSDiskSize(c: Config): (size: Option<int>)
    ensures size.Some? ==> 64 <= c.osDiskSize <= size.value
    ensures size.Some? ==> Some(size.value) == if c.osDiskTier == "" then Some(c.osDiskSize) else TierSize(c.osDiskTier)
    ensures size.Some? <==> c.osDiskSize >= 64 && (c.osDiskTier == "" || Holds(TierSize(c.osDiskTier), c.osDiskSize))
  {
    if c.osDiskSize < 64 then None
    else if c.osDiskTier == "" then Some(c.osDiskSize)
    else if TierSize(c.osDiskTier) == None || c.osDiskSize > TierSize(c.osDiskTier).value then None
    else TierSize(c.osDiskTier)
  }

  const WINDOWS_PROFILE := "avp-windows-"

  function WindowsProfile(suffix: string): Option<(string, int)> {
    match suffix
    case "m" => Some(("Standard_D2s_v5", 128))
    case "mp" => Some(("Standard_D2s_v5", 512))
    case "l" => Some(("Standard_D4s_v5", 128))
    case "lp" => Some(("Standard_D4s_v5", 512))
    case "xl" => Some(("Standard_D8s_v5", 128))
    case "xlp" => Some(("Standard_D8s_v5", 512))
    case _ => None
  }

  /** A label that names a Windows profile fixes the machine behind it. */
  predicate ProfileHonest(c: Config, value: string) {
    var text := Lower(TrimSpace(value));
    WINDOWS_PROFILE <= text ==>
      var profile := WindowsProfile(text[|WINDOWS_PROFILE|..]);
      && profile.Some? && c.osType == "Windows"
      && c.vmSize == profile.value.0 && EffectiveOSDiskSize(c) == Some(profile.value.1)
  }

  predicate WindowsShape(c: Config) {
    c.osType == "Windows" ==>
      && c.vmSize in ["Standard_D2s_v5", "Standard_D4s_v5", "Standard_D8s_v5"]
      && c.osDiskTier in ["", "P10", "P20"]
      && EffectiveOSDiskSize(c) in [Some(128), Some(512)]
  }

  ghost predicate ProfilesHonest(c: Config) {
    WindowsShape(c) && ProfileHonest(c, c.scaleSetName) && forall l :: l in c.labels ==> ProfileHonest(c, l)
  }

  /** Which labels a runner may be given. */
  predicate LabelFits(c: Config, text: string) {
    TrimSpace(text) != "" && (IsOperatingSystemLabel(TrimSpace(text)) ==> EqualFold(TrimSpace(text), OperatingSystemLabel(c)))
  }

  ghost predicate LabelsFit(c: Config) {
    && (forall l :: l in c.labels ==> LabelFits(c, l))
    && exists l :: l in c.labels && !IsOperatingSystemLabel(TrimSpace(l))
  }

  predicate PlatformFits(j: Judge, c: Config, requireImage: bool) {
    && (c.osType == "Linux" || c.osType == "Windows")
    && (c.osType == "Windows" ==> (requireImage ==> TrimSpace(c.imageID) != "") && j.windowsInputs(c.vmAdminUser, c.runnerSHA256))
    && (c.osType == "Linux" ==> TrimSpace(c.sshKey) != "")
  }

  predicate GitHubFits(j: Judge, c: Config) {
    j.registrationURL(c.registrationURL) && c.scaleSetName != "" && c.runnerGroup != ""
  }

  predicate SettingsPresent(c: Config) {
    forall s :: s in [c.subscriptionID, c.resourceGroup, c.location, c.subnetID, c.vmSize, c.vmAdminUser, c.runnerVersion, c.runnerSHA256]
      ==> TrimSpace(s) != ""
  }

  predicate NumbersFit(c: Config) {
    && c.minRunners == 0 && 0 <= c.maxRunners <= MAX_INT32
    && 1 <= c.concurrency <= 32 && c.reconcileSeconds >= 15 && c.idleSeconds >= 300 && c.maxAgeSeconds >= 3600
  }

  /** A single-pool configuration the controller runs with. */
  ghost predicate Fit(j: Judge, c: Config, requireImage: bool) {
    && PlatformFits(j, c, requireImage) && GitHubFits(j, c) && LabelsFit(c) && j.gitHubApp
    && SettingsPresent(c) && (c.priority == "Regular" || c.priority == "Spot")
    && EffectiveOSDiskSize(c).Some? && ProfilesHonest(c) && NumbersFit(c)
  }

  /** The defaults that validation fills in. */
  function Filled(c: Config): Config {
    var d := if c.osType == "" then c.(osType := "Linux") else c;
    if d.labels == [] then d.(labels := [d.scaleSetName]) else d
  }

  method CheckLabels(c: Config) returns (problem: Option<Problem>)
    ensures problem == None <==> LabelsFit(c)
  {
    var profileLabels := 0;
    for i := 0 to |c.labels|
      invariant forall k :: 0 <= k < i ==> LabelFits(c, c.labels[k])
      invariant profileLabels >= 0
      invariant profileLabels > 0 <==> exists k :: 0 <= k < i && !IsOperatingSystemLabel(TrimSpace(c.labels[k]))
    {
      var text := TrimSpace(c.labels[i]);
      assert c.labels[i] in c.labels;
      if text == "" {
        return Some(EmptyLabel);
      }
      if IsOperatingSystemLabel(text) {
        if !EqualFold(text, OperatingSystemLabel(c)) {
          return Some(ConflictingOSLabel);
        }
      } else {
        profileLabels := profileLabels + 1;
      }
    }
    problem := if profileLabels == 0 then Some(NoProfileLabel) else None;
  }

  method CheckWindowsProfile(c: Config) returns (problem: Option<Problem>)
    ensures problem == None <==> ProfilesHonest(c)
  {
    if !WindowsShape(c) {
      return Some(BadWindowsProfile);
    }
    var values := [c.scaleSetName] + c.labels;
    for i := 0 to |values|
      invariant forall k :: 0 <= k < i ==> ProfileHonest(c, values[k])
    {
      if !ProfileHonest(c, values[i]) {
        assert values[i] == c.scaleSetName || values[i] in c.labels;
        return Some(BadWindowsProfile);
      }
    }
    assert values[0] == c.scaleSetName;
    assert forall k :: 0 <= k < |c.labels| ==> values[k + 1] == c.labels[k];
    problem := None;
  }

  method CheckPlatform(j: Judge, c: Config, requireImage: bool) returns (problem: Option<Problem>)
    ensures problem == None <==> PlatformFits(j, c, requireImage)
  {
    problem :=
      if c.osType != "Linux" && c.osType != "Windows" then Some(BadOSType)
      else if c.osType == "Windows" && requireImage && TrimSpace(c.imageID) == "" then Some(NeedsImage)
      else if c.osType == "Windows" && !j.windowsInputs(c.vmAdminUser, c.runnerSHA256) then Some(BadWindowsInputs)
      else if c.osType == "Linux" && TrimSpace(c.sshKey) == "" then Some(NeedsSSHKey)
      else None;
  }

  method CheckRest(j: Judge, c: Config) returns (problem: Option<Problem>)
    ensures problem == None <==>
      && j.gitHubApp && SettingsPresent(c) && (c.priority == "Regular" || c.priority == "Spot")
      && EffectiveOSDiskSize(c).Some? && ProfilesHonest(c) && NumbersFit(c)
  {
    if !j.gitHubApp { return Some(BadApp); }
    if c.minRunners != 0 { return Some(BadMinimum); }
    if c.maxRunners < 0 || c.maxRunners > MAX_INT32 { return Some(BadMaximum); }
    if !SettingsPresent(c) { return Some(MissingSetting); }
    if c.priority != "Regular" && c.priority != "Spot" { return Some(BadPriority); }
    if EffectiveOSDiskSize(c) == None { return Some(BadDisk); }
    problem := CheckWindowsProfile(c);
    if problem != None { return; }
    if c.concurrency < 1 || c.concurrency > 32 { return Some(BadConcurrency); }
    if c.reconcileSeconds < 15 { return Some(BadInterval); }
    if c.idleSeconds < 300 { return Some(BadIdleTimeout); }
    if c.maxAgeSeconds < 3600 { return Some(BadMaxAge); }
  }

  /** Accepts exactly the fit configurations, with the defaults filled in. */
  method ValidateOne(j: Judge, c: Config, requireImage: bool) returns (r: Result<Config, Problem>)
    requires c.pools == []
    ensures r.Ok? <==> Fit(j, Filled(c), requireImage)
    ensures r.Ok? ==> r.value == Filled(c)
  {
    var d := c;
    if d.osType == "" {
      d := d.(osType := "Linux");
    }
    var problem := CheckPlatform(j, d, requireImage);
    if problem.Some? {
      return Err(problem.value);
    }
    if !j.registrationURL(d.registrationURL) { return Err(BadURL); }
    if d.scaleSetName == "" { return Err(NeedsName); }
    if d.runnerGroup == "" { return Err(NeedsGroup); }
    if d.labels == [] {
      d := d.(labels := [d.scaleSetName]);
    }
    problem := CheckLabels(d);
    if problem.Some? {
      return Err(problem.value);
    }
    problem := CheckRest(j, d);
    if problem.Some? {
      return Err(problem.value);
    }
    r := Ok(d);
  }

  // ---- Many pools ----------------------------------------------------------

  predicate IsAlphanumeric(ch: char) {
    'a' <= ch <= 'z' || 'A' <= ch <= 'Z' || '0' <= ch <= '9'
  }

  predicate ValidName(name: string) {
    && 1 <= |name| <= 64 && IsAlphanumeric(name[0])
    && forall i :: 1 <= i < |name| ==> IsAlphanumeric(name[i]) || name[i] in "._-"
  }

  predicate ValidSize(size: string) {
    && "Standard_" < size
    && forall i :: |"Standard_"| <= i < |size| ==> IsAlphanumeric(size[i]) || size[i] == '_'
  }

  predicate Enabled(pool: Pool) {
    pool.enabled == None || pool.enabled == Some(true)
  }

  function Name(pool: Pool): string {
    TrimSpace(pool.name)
  }

  /** The configuration of one pool: what it sets itself, else what is shared,
      except that a Windows pool takes neither the image nor the checksum meant
      for Linux. */
  function Profile(c: Config, pool: Pool): Config {
    var priority := TrimSpace(pool.priority);
    var windows := pool.osType == "Windows";
    var ownImage := TrimSpace(pool.imageID);
    c.(pools := [], scaleSetName := Name(pool), vmSize := TrimSpace(pool.vmSize), maxRunners := pool.maxRunners,
       priority := if priority == "" then "Regular" else priority,
       osDiskTier := TrimSpace(pool.osDiskTier), osType := pool.osType,
       imageID := if ownImage != "" then ownImage else if windows then "" else c.imageID,
       runnerSHA256 := if !windows then c.runnerSHA256
                       else if c.windowsRunnerSHA256 != "" then c.windowsRunnerSHA256 else DEFAULT_WINDOWS_SHA,
       labels := if pool.labels == [] then [Name(pool)] else pool.labels)
  }

  function Resolved(c: Config, pool: Pool): Config {
    Filled(Profile(c, pool))
  }

  ghost predicate PoolFits(j: Judge, c: Config, pool: Pool) {
    ValidName(Name(pool)) && ValidSize(TrimSpace(pool.vmSize)) && Fit(j, Resolved(c, pool), Enabled(pool))
  }

  function Key(text: string): string {
    Lower(TrimSpace(text))
  }

  /** The profile labels among the given ones, as they are compared. */
  function Keys(labels: seq<string>): seq<string> {
    if labels == [] then [] else
      var key := Key(labels[|labels| - 1]);
      Keys(labels[..|labels| - 1]) + if IsOperatingSystemLabel(key) then [] else [key]
  }

  function AllKeys(c: Config, pools: seq<Pool>): seq<string> {
    if pools == [] then [] else
      AllKeys(c, pools[..|pools| - 1]) + Keys(Resolved(c, pools[|pools| - 1]).labels)
  }

  ghost predicate Distinct<T(!new)>(s: seq<T>) {
    forall i, j :: 0 <= i < j < |s| ==> s[i] != s[j]
  }

  function LoweredNames(pools: seq<Pool>): seq<string> {
    seq(|pools|, i requires 0 <= i < |pools| => Lower(Name(pools[i])))
  }

  function EnabledConfigs(c: Config, pools: seq<Pool>): seq<Config> {
    if pools == [] then [] else
      var pool := pools[|pools| - 1];
      EnabledConfigs(c, pools[..|pools| - 1]) + if Enabled(pool) then [Resolved(c, pool)] else []
  }

  /** Every pool fits, enabled or not, and no two share a name or claim a label. */
  ghost predicate Routable(j: Judge, c: Config, pools: seq<Pool>) {
    && (forall pool :: pool in pools ==> PoolFits(j, c, pool))
    && Distinct(LoweredNames(pools))
    && Distinct(AllKeys(c, pools))
  }

  ghost predicate Accepted(j: Judge, c: Config) {
    if c.pools == [] then Fit(j, Filled(c), true) else Routable(j, c, c.pools) && EnabledConfigs(c, c.pools) != []
  }

  ghost function Configs(c: Config): seq<Config> {
    if c.pools == [] then [Filled(c)] else EnabledConfigs(c, c.pools)
  }

  lemma DistinctConcat<T(!new)>(a: seq<T>, b: seq<T>)
    ensures Distinct(a + b) <==> Distinct(a) && Distinct(b) && forall x :: x in b ==> x !in a
  {
    var s := a + b;
    assert forall i :: 0 <= i < |a| ==> s[i] == a[i];
    assert forall i :: 0 <= i < |b| ==> s[|a| + i] == b[i];
    if Distinct(s) {
      forall i, j | 0 <= i < j < |b| ensures b[i] != b[j] {
        assert s[|a| + i] != s[|a| + j];
      }
      forall x | x in b ensures x !in a {
        var k :| 0 <= k < |b| && b[k] == x;
        assert s[|a| + k] == x;
      }
    }
    if Distinct(a) && Distinct(b) && forall x :: x in b ==> x !in a {
      forall i, j | 0 <= i < j < |s| ensures s[i] != s[j] {
        if j >= |a| {
          assert s[j] in b;
        }
      }
    }
  }

  lemma KeysExtend(labels: seq<string>, text: string)
    ensures Keys(labels + [text]) == Keys(labels) + if IsOperatingSystemLabel(Key(text)) then [] else [Key(text)]
  {
    assert (labels + [text])[..|labels|] == labels;
  }

  lemma PoolsExtend(c: Config, pools: seq<Pool>, pool: Pool)
    ensures AllKeys(c, pools + [pool]) == AllKeys(c, pools) + Keys(Resolved(c, pool).labels)
    ensures EnabledConfigs(c, pools + [pool]) == EnabledConfigs(c, pools) + if Enabled(pool) then [Resolved(c, pool)] else []
    ensures LoweredNames(pools + [pool]) == LoweredNames(pools) + [Lower(Name(pool))]
  {
    assert (pools + [pool])[..|pools|] == pools;
  }

  /** Keys that can be claimed beside the ones already owned. */
  ghost predicate Unclaimed(owned: set<string>, keys: seq<string>) {
    Distinct(keys) && forall key :: key in keys ==> key !in owned
  }

  function KeySet(keys: seq<string>): set<string> {
    set key | key in keys
  }

  lemma UnclaimedExtends(owned: set<string>, keys: seq<string>, key: string)
    ensures Unclaimed(owned, keys + [key]) <==> Unclaimed(owned, keys) && key !in owned + KeySet(keys)
    ensures KeySet(keys + [key]) == KeySet(keys) + {key}
  {
    DistinctConcat(keys, [key]);
    assert key in [key];
    assert forall k :: k in keys + [key] <==> k in keys || k == key;
  }

  /** What is owned after claiming the profile labels one by one, if none clashes. */
  function Claimed(owned: set<string>, labels: seq<string>): Option<set<string>> {
    if labels == [] then Some(owned) else
      var before := Claimed(owned, labels[..|labels| - 1]);
      var key := Key(labels[|labels| - 1]);
      if before == None || IsOperatingSystemLabel(key) then before
      else if key in before.value then None
      else Some(before.value + {key})
  }

  lemma {:induction false} ClaimedMeans(owned: set<string>, labels: seq<string>)
    ensures Claimed(owned, labels).Some? <==> Unclaimed(owned, Keys(labels))
    ensures Claimed(owned, labels).Some? ==> Claimed(owned, labels).value == owned + KeySet(Keys(labels))
  {
    if labels != [] {
      var front, text := labels[..|labels| - 1], labels[|labels| - 1];
      ClaimedMeans(owned, front);
      assert labels == front + [text];
      KeysExtend(front, text);
      UnclaimedExtends(owned, Keys(front), Key(text));
      assert IsOperatingSystemLabel(Key(text)) ==> Keys(labels) == Keys(front);
    }
  }

  lemma {:induction false} ClashStays(owned: set<string>, labels: seq<string>, n: nat)
    requires n <= |labels| && Claimed(owned, labels[..n]) == None
    ensures Claimed(owned, labels) == None
  {
    if n < |labels| {
      assert labels[..|labels| - 1][..n] == labels[..n];
      ClashStays(owned, labels[..|labels| - 1], n);
    } else {
      assert labels[..n] == labels;
    }
  }

  lemma PoolsFitExtends(j: Judge, c: Config, pools: seq<Pool>, pool: Pool)
    ensures (forall p :: p in pools + [pool] ==> PoolFits(j, c, p)) <==>
            (forall p :: p in pools ==> PoolFits(j, c, p)) && PoolFits(j, c, pool)
  {
    assert pool in pools + [pool];
    assert forall p :: p in pools + [pool] <==> p in pools || p == pool;
  }

  lemma RoutableExtends(j: Judge, c: Config, pools: seq<Pool>, pool: Pool)
    ensures Routable(j, c, pools + [pool]) <==>
      && Routable(j, c, pools) && PoolFits(j, c, pool) && Lower(Name(pool)) !in LoweredNames(pools)
      && Unclaimed(KeySet(AllKeys(c, pools)), Keys(Resolved(c, pool).labels))
  {
    PoolsFitExtends(j, c, pools, pool);
    PoolsExtend(c, pools, pool);
    DistinctConcat(LoweredNames(pools), [Lower(Name(pool))]);
    DistinctConcat(AllKeys(c, pools), Keys(Resolved(c, pool).labels));
    assert Lower(Name(pool)) in [Lower(Name(pool))];
  }

  datatype Progress = Progress(names: set<string>, owned: set<string>, result: seq<Config>)

  /** How far resolution gets: one pool after the other, until one is refused. */
  ghost function Resolution(j: Judge, c: Config, pools: seq<Pool>): Option<Progress> {
    if pools == [] then Some(Progress({}, {}, [])) else
      var before := Resolution(j, c, pools[..|pools| - 1]);
      if before == None then None else Advance(j, c, before.value, pools[|pools| - 1])
  }

  ghost function Advance(j: Judge, c: Config, p: Progress, pool: Pool): Option<Progress> {
    if !PoolFits(j, c, pool) || Lower(Name(pool)) in p.names then None
    else
      var owned := Claimed(p.owned, Resolved(c, pool).labels);
      if owned == None then None
      else Some(Progress(p.names + {Lower(Name(pool))}, owned.value,
                         p.result + if Enabled(pool) then [Resolved(c, pool)] else []))
  }

  ghost predicate Sums(c: Config, pools: seq<Pool>, p: Progress) {
    && p.names == KeySet(LoweredNames(pools)) && p.owned == KeySet(AllKeys(c, pools)) && p.result == EnabledConfigs(c, pools)
  }

  lemma KeySetConcat(a: seq<string>, b: seq<string>)
    ensures KeySet(a + b) == KeySet(a) + KeySet(b)
  {
  }

  lemma AdvanceSums(j: Judge, c: Config, pools: seq<Pool>, p: Progress, pool: Pool)
    requires Sums(c, pools, p) && Advance(j, c, p, pool).Some?
    ensures Sums(c, pools + [pool], Advance(j, c, p, pool).value)
  {
    PoolsExtend(c, pools, pool);
    ClaimedMeans(p.owned, Resolved(c, pool).labels);
    KeySetConcat(LoweredNames(pools), [Lower(Name(pool))]);
    KeySetConcat(AllKeys(c, pools), Keys(Resolved(c, pool).labels));
  }

  lemma AdvanceIsRoutable(j: Judge, c: Config, pools: seq<Pool>, p: Progress, pool: Pool)
    requires Sums(c, pools, p) && Routable(j, c, pools)
    ensures Advance(j, c, p, pool).Some? <==> Routable(j, c, pools + [pool])
  {
    RoutableExtends(j, c, pools, pool);
    ClaimedMeans(p.owned, Resolved(c, pool).labels);
  }

  /** Going pool by pool accepts exactly the routable lists. */
  lemma {:induction false} ResolutionMeansRoutable(j: Judge, c: Config, pools: seq<Pool>)
    ensures Resolution(j, c, pools).Some? <==> Routable(j, c, pools)
    ensures Resolution(j, c, pools).Some? ==> Sums(c, pools, Resolution(j, c, pools).value)
  {
    if pools != [] {
      var front, pool := pools[..|pools| - 1], pools[|pools| - 1];
      ResolutionMeansRoutable(j, c, front);
      assert pools == front + [pool];
      if Resolution(j, c, front) == None {
        RoutableExtends(j, c, front, pool);
      } else {
        var before := Resolution(j, c, front).value;
        AdvanceIsRoutable(j, c, front, before, pool);
        if Advance(j, c, before, pool).Some? {
          AdvanceSums(j, c, front, before, pool);
        }
      }
    }
  }

  lemma {:induction false} RefusalStays(j: Judge, c: Config, pools: seq<Pool>, n: nat)
    requires n <= |pools| && Resolution(j, c, pools[..n]) == None
    ensures Resolution(j, c, pools) == None
  {
    if n < |pools| {
      assert pools[..|pools| - 1][..n] == pools[..n];
      RefusalStays(j, c, pools[..|pools| - 1], n);
    } else {
      assert pools[..n] == pools;
    }
  }

  lemma NextResolution(j: Judge, c: Config, pools: seq<Pool>, i: nat)
    requires i < |pools| && Resolution(j, c, pools[..i]).Some?
    ensures var p := Advance(j, c, Resolution(j, c, pools[..i]).value, pools[i]);
      Resolution(j, c, pools[..i + 1]) == p && (p == None ==> Resolution(j, c, pools) == None)
  {
    assert pools[..i + 1][..i] == pools[..i];
    if Resolution(j, c, pools[..i + 1]) == None {
      RefusalStays(j, c, pools, i + 1);
    }
  }

  /** The inner loop: claims the profile labels of one pool. */
  method Claim(owners: map<string, string>, owner: string, labels: seq<string>) returns (r: Option<map<string, string>>)
    ensures r.Some? <==> Claimed(owners.Keys, labels).Some?
    ensures r.Some? ==> r.value.Keys == Claimed(owners.Keys, labels).value
  {
    var claimed := owners;
    for i := 0 to |labels|
      invariant Claimed(owners.Keys, labels[..i]) == Some(claimed.Keys)
    {
      var key := Key(labels[i]);
      assert labels[..i + 1][..i] == labels[..i];
      if IsOperatingSystemLabel(key) {
        continue;
      }
      if key in claimed {
        ClashStays(owners.Keys, labels, i + 1);
        return None;
      }
      assert claimed[key := owner].Keys == claimed.Keys + {key};
      claimed := claimed[key := owner];
    }
    assert labels[..|labels|] == labels;
    r := Some(claimed);
  }

  method ResolvePool(j: Judge, c: Config, pool: Pool, names: set<string>) returns (r: Result<Config, Problem>)
    ensures r.Ok? <==> PoolFits(j, c, pool) && Lower(Name(pool)) !in names
    ensures r.Ok? ==> r.value == Resolved(c, pool)
  {
    var name := TrimSpace(pool.name);
    if !ValidName(name) || Lower(name) in names {
      return Err(BadPoolName);
    }
    var p := c.(pools := [], scaleSetName := name, vmSize := TrimSpace(pool.vmSize));
    if !ValidSize(p.vmSize) {
      return Err(BadPoolSize);
    }
    p := p.(maxRunners := pool.maxRunners, priority := TrimSpace(pool.priority));
    if p.priority == "" {
      p := p.(priority := "Regular");
    }
    p := p.(osDiskTier := TrimSpace(pool.osDiskTier), osType := pool.osType);
    if p.osType == "Windows" {
      p := p.(imageID := "", runnerSHA256 := c.windowsRunnerSHA256);
      if p.runnerSHA256 == "" {
        p := p.(runnerSHA256 := DEFAULT_WINDOWS_SHA);
      }
    }
    var imageID := TrimSpace(pool.imageID);
    if imageID != "" {
      p := p.(imageID := imageID);
    }
    p := p.(labels := pool.labels);
    if p.labels == [] {
      p := p.(labels := [name]);
    }
    assert p == Profile(c, pool);
    r := ValidateOne(j, p, Enabled(pool));
  }

  /** One turn of the loop over the pools, short of collecting the result. */
  method TakePool(j: Judge, c: Config, pool: Pool, names: set<string>, owners: map<string, string>, ghost soFar: seq<Config>)
    returns (r: Result<(Config, map<string, string>), Problem>)
    ensures var next := Advance(j, c, Progress(names, owners.Keys, soFar), pool);
      && (r.Ok? <==> next.Some?)
      && (r.Ok? ==>
            && r.value.0 == Resolved(c, pool) && next.value.names == names + {Lower(Name(pool))}
            && next.value.owned == r.value.1.Keys
            && next.value.result == soFar + if Enabled(pool) then [r.value.0] else [])
  {
    var p := ResolvePool(j, c, pool, names);
    if p.Err? {
      return Err(p.error);
    }
    var claimed := Claim(owners, Name(pool), p.value.labels);
    r := if claimed == None then Err(RepeatedLabel) else Ok((p.value, claimed.value));
  }

  /** The loop over the pools. */
  method ResolvePools(j: Judge, c: Config) returns (r: Result<seq<Config>, Problem>)
    ensures r.Ok? <==> Resolution(j, c, c.pools).Some?
    ensures r.Ok? ==> r.value == Resolution(j, c, c.pools).value.result
  {
    var names: set<string>, owners: map<string, string> := {}, map[];
    var result: seq<Config> := [];
    for i := 0 to |c.pools|
      invariant var p := Resolution(j, c, c.pools[..i]);
        p.Some? && p.value.names == names && p.value.owned == owners.Keys && p.value.result == result
    {
      var pool := c.pools[i];
      NextResolution(j, c, c.pools, i);
      var taken := TakePool(j, c, pool, names, owners, result);
      if taken.Err? {
        return Err(taken.error);
      }
      names := names + {Lower(Name(pool))};
      owners := taken.value.1;
      if Enabled(pool) {
        result := result + [taken.value.0];
      }
    }
    assert c.pools[..|c.pools|] == c.pools;
    r := Ok(result);
  }

  /** Resolves a configuration, or refuses it exactly when it is not acceptable. */
  method PoolConfigs(j: Judge, c: Config) returns (r: Result<seq<Config>, Problem>)
    ensures r.Ok? <==> Accepted(j, c)
    ensures r.Ok? ==> r.value == Configs(c)
  {
    if c.pools == [] {
      var one := ValidateOne(j, c, true);
      return if one.Ok? then Ok([one.value]) else Err(one.error);
    }
    r := ResolvePools(j, c);
    ResolutionMeansRoutable(j, c, c.pools);
    if r == Ok([]) {
      r := Err(NothingEnabled);
    }
  }

  // ---- What listeners advertise --------------------------------------------

  function ProfileLabels(labels: seq<string>): seq<string> {
    if labels == [] then [] else
      var text := TrimSpace(labels[|labels| - 1]);
      ProfileLabels(labels[..|labels| - 1]) + if IsOperatingSystemLabel(text) then [] else [text]
  }

  method ScaleSetLabels(c: Config) returns (labels: seq<string>)
    ensures labels == ProfileLabels(c.labels) + [OperatingSystemLabel(c)]
  {
    labels := [];
    for i := 0 to |c.labels|
      invariant labels == ProfileLabels(c.labels[..i])
    {
      var text := TrimSpace(c.labels[i]);
      assert c.labels[..i + 1][..i] == c.labels[..i];
      if !IsOperatingSystemLabel(text) {
        labels := labels + [text];
      }
    }
    assert c.labels[..|c.labels|] == c.labels;
    labels := labels + [OperatingSystemLabel(c)];
  }

  function Advertised(c: Config): seq<string> {
    ProfileLabels(c.labels) + [OperatingSystemLabel(c)]
  }

  lemma FoldingIsIdempotent(s: string)
    ensures Lower(Lower(s)) == Lower(s)
    ensures IsOperatingSystemLabel(Lower(s)) == IsOperatingSystemLabel(s)
  {
  }

  /** What is compared is what is advertised, up to case. */
  lemma {:induction false} KeysAreTheFoldedProfileLabels(labels: seq<string>)
    ensures |Keys(labels)| == |ProfileLabels(labels)|
    ensures forall i :: 0 <= i < |Keys(labels)| ==>
      Keys(labels)[i] == Lower(ProfileLabels(labels)[i]) && !IsOperatingSystemLabel(ProfileLabels(labels)[i])
  {
    if labels != [] {
      KeysAreTheFoldedProfileLabels(labels[..|labels| - 1]);
      FoldingIsIdempotent(TrimSpace(labels[|labels| - 1]));
    }
  }

  function PoolKeys(c: Config, pool: Pool): seq<string> {
    Keys(Resolved(c, pool).labels)
  }

  lemma PrefixGrows<T>(a: seq<T>, b: seq<T>, more: seq<T>)
    requires a <= b
    ensures a <= b + more
  {
  }

  lemma {:induction false} AllKeysPrefix(c: Config, pools: seq<Pool>, n: nat)
    requires n <= |pools|
    ensures AllKeys(c, pools[..n]) <= AllKeys(c, pools)
  {
    if n < |pools| {
      var front, last := pools[..|pools| - 1], pools[|pools| - 1];
      assert front[..n] == pools[..n];
      AllKeysPrefix(c, front, n);
      PrefixGrows(AllKeys(c, pools[..n]), AllKeys(c, front), Keys(Resolved(c, last).labels));
    } else {
      assert pools[..n] == pools;
    }
  }

  lemma PoolKeysAreAmongAll(c: Config, pools: seq<Pool>, i: nat)
    requires i < |pools|
    ensures KeySet(PoolKeys(c, pools[i])) <= KeySet(AllKeys(c, pools))
  {
    assert pools[..i + 1] == pools[..i] + [pools[i]];
    PoolsExtend(c, pools[..i], pools[i]);
    KeySetConcat(AllKeys(c, pools[..i]), PoolKeys(c, pools[i]));
    AllKeysPrefix(c, pools, i + 1);
    KeySetPrefix(AllKeys(c, pools[..i + 1]), AllKeys(c, pools));
  }

  lemma KeySetPrefix(a: seq<string>, b: seq<string>)
    requires a <= b
    ensures KeySet(a) <= KeySet(b)
  {
    assert b == a + b[|a|..];
  }

  /** Enabled or not, an accepted pool repeats no profile label, neither its own
      nor one of an earlier pool. */
  lemma {:induction false} ProfileLabelsAreDistinct(c: Config, pools: seq<Pool>, i: nat, k: nat)
    requires Distinct(AllKeys(c, pools))
    requires i <= k < |pools|
    ensures Distinct(PoolKeys(c, pools[k]))
    ensures i < k ==> KeySet(PoolKeys(c, pools[i])) !! KeySet(PoolKeys(c, pools[k]))
  {
    var front, last := pools[..|pools| - 1], pools[|pools| - 1];
    assert pools == front + [last];
    PoolsExtend(c, front, last);
    DistinctConcat(AllKeys(c, front), PoolKeys(c, last));
    if k < |front| {
      ProfileLabelsAreDistinct(c, front, i, k);
    } else if i < k {
      PoolKeysAreAmongAll(c, front, i);
    }
  }

  /** The resolved configurations are those of the enabled pools, in order. */
  lemma {:induction false} EnabledAreInOrder(c: Config, pools: seq<Pool>) returns (at: seq<int>)
    ensures |at| == |EnabledConfigs(c, pools)|
    ensures forall n :: 0 <= n < |at| ==>
      0 <= at[n] < |pools| && Enabled(pools[at[n]]) && EnabledConfigs(c, pools)[n] == Resolved(c, pools[at[n]])
    ensures forall m, n :: 0 <= m < n < |at| ==> at[m] < at[n]
  {
    if pools == [] {
      at := [];
      return;
    }
    var front, last := pools[..|pools| - 1], pools[|pools| - 1];
    at := EnabledAreInOrder(c, front);
    assert pools == front + [last];
    if Enabled(last) {
      at := at + [|front|];
    }
  }

  /** Every configuration the listeners get was validated as an enabled one. */
  lemma ResolvedConfigsFit(j: Judge, c: Config, p: Config)
    requires Accepted(j, c) && p in Configs(c)
    ensures Fit(j, p, true) && p.pools == [] && Filled(p) == p
  {
    if c.pools != [] {
      var at := EnabledAreInOrder(c, c.pools);
      var n :| 0 <= n < |at| && EnabledConfigs(c, c.pools)[n] == p;
      assert PoolFits(j, c, c.pools[at[n]]);
    }
  }

  /** Each resolved configuration is that of one enabled pool. */
  lemma ResolvedFromItsPool(c: Config, k: nat) returns (pool: Pool)
    requires c.pools != [] && k < |Configs(c)|
    ensures pool in c.pools && Enabled(pool) && Configs(c)[k] == Resolved(c, pool)
  {
    var at := EnabledAreInOrder(c, c.pools);
    pool := c.pools[at[k]];
  }

  /** What a pool configures itself, trimmed; a blank priority means Regular, no OS
      type Linux, and no label the name of the pool. */
  predicate TakesItsOwn(pool: Pool, p: Config) {
    && p.scaleSetName == TrimSpace(pool.name) && p.vmSize == TrimSpace(pool.vmSize)
    && p.maxRunners == pool.maxRunners && p.osDiskTier == TrimSpace(pool.osDiskTier)
    && (TrimSpace(pool.priority) == "" ==> p.priority == "Regular")
    && (TrimSpace(pool.priority) != "" ==> p.priority == TrimSpace(pool.priority))
    && (pool.osType == "" ==> p.osType == "Linux") && (pool.osType != "" ==> p.osType == pool.osType)
    && (pool.labels == [] ==> p.labels == [TrimSpace(pool.name)]) && (pool.labels != [] ==> p.labels == pool.labels)
    && p.pools == []
  }

  /** A Linux pool without an image of its own has the shared one, and the shared
      checksum; a Windows pool has neither. */
  predicate TakesItsImage(c: Config, pool: Pool, p: Config) {
    && (TrimSpace(pool.imageID) != "" ==> p.imageID == TrimSpace(pool.imageID))
    && (TrimSpace(pool.imageID) == "" && pool.osType != "Windows" ==> p.imageID == c.imageID)
    && (TrimSpace(pool.imageID) == "" && pool.osType == "Windows" ==> p.imageID == "")
    && (pool.osType != "Windows" ==> p.runnerSHA256 == c.runnerSHA256)
    && (pool.osType == "Windows" && c.windowsRunnerSHA256 != "" ==> p.runnerSHA256 == c.windowsRunnerSHA256)
    && (pool.osType == "Windows" && c.windowsRunnerSHA256 == "" ==>
          p.runnerSHA256 == "1150692afa94e71f872017e254ea55b6eece1eece3fe7e3a6d4c93d0a1b85cfc")
  }

  predicate SharesTheRest(c: Config, p: Config) {
    && p.registrationURL == c.registrationURL && p.runnerGroup == c.runnerGroup && p.minRunners == c.minRunners
    && p.subscriptionID == c.subscriptionID && p.resourceGroup == c.resourceGroup && p.location == c.location
    && p.subnetID == c.subnetID && p.vmAdminUser == c.vmAdminUser && p.sshKey == c.sshKey
    && p.runnerVersion == c.runnerVersion && p.windowsRunnerSHA256 == c.windowsRunnerSHA256 && p.osDiskSize == c.osDiskSize
    && p.concurrency == c.concurrency && p.reconcileSeconds == c.reconcileSeconds
    && p.idleSeconds == c.idleSeconds && p.maxAgeSeconds == c.maxAgeSeconds
  }

  lemma ResolvedTakesAfterItsPool(c: Config, pool: Pool)
    ensures var p := Resolved(c, pool); TakesItsOwn(pool, p) && TakesItsImage(c, pool, p) && SharesTheRest(c, p)
  {
  }

  /** Every configuration the listeners get takes after one enabled pool and the
      shared settings, and after nothing else. */
  lemma ConfigsTakeAfterTheirPools(c: Config, k: nat) returns (pool: Pool)
    requires c.pools != [] && k < |Configs(c)|
    ensures pool in c.pools && pool.enabled != Some(false)
    ensures var p := Configs(c)[k]; TakesItsOwn(pool, p) && TakesItsImage(c, pool, p) && SharesTheRest(c, p)
  {
    pool := ResolvedFromItsPool(c, k);
    ResolvedTakesAfterItsPool(c, pool);
  }

  lemma MemberStays<T>(s: seq<T>, t: seq<T>, x: T)
    ensures x in s || x in t ==> x in s + t
  {
  }

  lemma {:induction false} EnabledAreKept(c: Config, pools: seq<Pool>, k: nat, p: Config)
    requires k < |pools| && Enabled(pools[k]) && p == Resolved(c, pools[k])
    ensures p in EnabledConfigs(c, pools)
  {
    var front, last := pools[..|pools| - 1], pools[|pools| - 1];
    var kept, more := EnabledConfigs(c, front), if Enabled(last) then [Resolved(c, last)] else [];
    if k < |front| {
      EnabledAreKept(c, front, k, p);
    } else {
      assert more == [p];
    }
    MemberStays(kept, more, p);
  }

  /** Every pool that is not switched off gets a listener. */
  lemma EnabledPoolsAreServed(c: Config, pool: Pool)
    requires pool in c.pools && pool.enabled != Some(false)
    ensures exists p :: p in Configs(c) && TakesItsOwn(pool, p)
  {
    var k :| 0 <= k < |c.pools| && c.pools[k] == pool;
    assert pool.enabled.Some? ==> pool.enabled.value;
    EnabledAreKept(c, c.pools, k, Resolved(c, pool));
    ResolvedTakesAfterItsPool(c, pool);
    assert TakesItsOwn(pool, Resolved(c, pool));
  }

  lemma {:induction false} NothingKept(c: Config, pools: seq<Pool>)
    requires forall pool :: pool in pools ==> pool.enabled == Some(false)
    ensures EnabledConfigs(c, pools) == []
  {
    if pools != [] {
      NothingKept(c, pools[..|pools| - 1]);
      assert pools[|pools| - 1] in pools;
    }
  }

  /** A list with every pool switched off is refused, and so is one with two pools of
      the same name, in whatever case. */
  lemma UnusableListsAreRefused(j: Judge, c: Config)
    requires c.pools != []
    ensures (forall pool :: pool in c.pools ==> pool.enabled == Some(false)) ==> !Accepted(j, c)
    ensures (exists a, b :: 0 <= a < b < |c.pools| &&
              Lower(TrimSpace(c.pools[a].name)) == Lower(TrimSpace(c.pools[b].name))) ==> !Accepted(j, c)
  {
    if forall pool :: pool in c.pools ==> pool.enabled == Some(false) {
      NothingKept(c, c.pools);
    }
    if Accepted(j, c) {
      forall a, b | 0 <= a < b < |c.pools| ensures Lower(TrimSpace(c.pools[a].name)) != Lower(TrimSpace(c.pools[b].name)) {
        assert LoweredNames(c.pools)[a] != LoweredNames(c.pools)[b];
      }
    }
  }

  /** An operating system among the configured labels is that of the pool. */
  lemma SystemLabelsAgree(j: Judge, c: Config, p: Config, l: string)
    requires Accepted(j, c) && p in Configs(c) && l in p.labels
    ensures TrimSpace(l) != ""
    ensures IsOperatingSystemLabel(TrimSpace(l)) ==> Lower(TrimSpace(l)) == Lower(p.osType)
  {
    ResolvedConfigsFit(j, c, p);
    assert LabelFits(p, l);
  }

  /** An enabled Windows pool without an image of its own is refused, whatever image
      the pools share. */
  lemma WindowsNeedsItsOwnImage(j: Judge, c: Config, pool: Pool)
    requires pool in c.pools && Enabled(pool) && pool.osType == "Windows" && TrimSpace(pool.imageID) == ""
    ensures !Accepted(j, c)
  {
    ResolvedTakesAfterItsPool(c, pool);
    assert TrimSpace("") == "";
    assert !PoolFits(j, c, pool);
  }

  /** What the listeners can rely on in every configuration they get. */
  lemma ResolvedConfigsAreInRange(j: Judge, c: Config, p: Config)
    requires Accepted(j, c) && p in Configs(c)
    ensures p.minRunners == 0 && 0 <= p.maxRunners <= 2147483647 && 1 <= p.concurrency <= 32
    ensures p.reconcileSeconds >= 15 && p.idleSeconds >= 300 && p.maxAgeSeconds >= 3600
    ensures (p.osType == "Linux" && TrimSpace(p.sshKey) != "") || (p.osType == "Windows" && TrimSpace(p.imageID) != "")
    ensures p.priority == "Regular" || p.priority == "Spot"
    ensures p.osDiskSize >= 64 && (p.osDiskTier == "" || p.osDiskTier == "P10" || p.osDiskTier == "P15" || p.osDiskTier == "P20" || p.osDiskTier == "P30")
    ensures p.scaleSetName != "" && p.runnerGroup != "" && TrimSpace(p.vmSize) != "" && TrimSpace(p.subnetID) != ""
    ensures TrimSpace(p.subscriptionID) != "" && TrimSpace(p.resourceGroup) != "" && TrimSpace(p.location) != ""
    ensures TrimSpace(p.vmAdminUser) != "" && TrimSpace(p.runnerVersion) != "" && TrimSpace(p.runnerSHA256) != ""
  {
    ResolvedConfigsFit(j, c, p);
    FitIsInRange(j, p);
    SettingsAreThere(p);
  }

  lemma FitIsInRange(j: Judge, p: Config)
    requires PlatformFits(j, p, true) && GitHubFits(j, p) && NumbersFit(p) && EffectiveOSDiskSize(p).Some?
    ensures p.minRunners == 0 && 0 <= p.maxRunners <= 2147483647 && 1 <= p.concurrency <= 32
    ensures p.reconcileSeconds >= 15 && p.idleSeconds >= 300 && p.maxAgeSeconds >= 3600
    ensures (p.osType == "Linux" && TrimSpace(p.sshKey) != "") || (p.osType == "Windows" && TrimSpace(p.imageID) != "")
    ensures p.osDiskSize >= 64 && (p.osDiskTier == "" || p.osDiskTier == "P10" || p.osDiskTier == "P15" || p.osDiskTier == "P20" || p.osDiskTier == "P30")
    ensures p.scaleSetName != "" && p.runnerGroup != ""
  {
  }

  /** The machine and disk of every resolved configuration. */
  lemma ResolvedMachines(j: Judge, c: Config, p: Config)
    requires Accepted(j, c) && p in Configs(c)
    ensures p.osDiskTier == "" ==> EffectiveOSDiskSize(p) == Some(p.osDiskSize)
    ensures p.osDiskTier == "P10" ==> EffectiveOSDiskSize(p) == Some(128)
    ensures p.osDiskTier == "P15" ==> EffectiveOSDiskSize(p) == Some(256)
    ensures p.osDiskTier == "P20" ==> EffectiveOSDiskSize(p) == Some(512)
    ensures p.osDiskTier == "P30" ==> EffectiveOSDiskSize(p) == Some(1024)
    ensures p.osType == "Windows" ==>
      && (p.vmSize == "Standard_D2s_v5" || p.vmSize == "Standard_D4s_v5" || p.vmSize == "Standard_D8s_v5")
      && (EffectiveOSDiskSize(p) == Some(128) || EffectiveOSDiskSize(p) == Some(512))
  {
    ResolvedConfigsFit(j, c, p);
    FitMachines(p);
  }

  lemma FitMachines(p: Config)
    requires EffectiveOSDiskSize(p).Some? && WindowsShape(p)
    ensures p.osDiskTier == "" ==> EffectiveOSDiskSize(p) == Some(p.osDiskSize)
    ensures p.osDiskTier == "P10" ==> EffectiveOSDiskSize(p) == Some(128)
    ensures p.osDiskTier == "P15" ==> EffectiveOSDiskSize(p) == Some(256)
    ensures p.osDiskTier == "P20" ==> EffectiveOSDiskSize(p) == Some(512)
    ensures p.osDiskTier == "P30" ==> EffectiveOSDiskSize(p) == Some(1024)
    ensures p.osType == "Windows" ==>
      && (p.vmSize == "Standard_D2s_v5" || p.vmSize == "Standard_D4s_v5" || p.vmSize == "Standard_D8s_v5")
      && (EffectiveOSDiskSize(p) == Some(128) || EffectiveOSDiskSize(p) == Some(512))
  {
  }

  /** The names and VM sizes of resolved pools. */
  lemma ResolvedNames(j: Judge, c: Config, p: Config, k: nat)
    requires Accepted(j, c) && c.pools != [] && p in Configs(c)
    ensures 1 <= |p.scaleSetName| <= 64 && IsAlphanumeric(p.scaleSetName[0])
    ensures k < |p.scaleSetName| ==>
      var ch := p.scaleSetName[k]; IsAlphanumeric(ch) || ch == '.' || ch == '_' || ch == '-'
    ensures |p.vmSize| > 9 && p.vmSize[..9] == "Standard_"
    ensures 9 <= k < |p.vmSize| ==> IsAlphanumeric(p.vmSize[k]) || p.vmSize[k] == '_'
  {
    var n :| 0 <= n < |Configs(c)| && Configs(c)[n] == p;
    var pool := ResolvedFromItsPool(c, n);
    assert PoolFits(j, c, pool);
    NamesAndSizes(pool);
    ResolvedTakesAfterItsPool(c, pool);
  }

  lemma NamesAndSizes(pool: Pool)
    requires ValidName(Name(pool)) && ValidSize(TrimSpace(pool.vmSize))
    ensures var name, size := Name(pool), TrimSpace(pool.vmSize);
      && 1 <= |name| <= 64 && IsAlphanumeric(name[0]) && |size| > 9 && size[..9] == "Standard_"
      && (forall k :: 0 <= k < |name| ==> IsAlphanumeric(name[k]) || name[k] == '.' || name[k] == '_' || name[k] == '-')
      && (forall k :: 9 <= k < |size| ==> IsAlphanumeric(size[k]) || size[k] == '_')
  {
    assert |"Standard_"| == 9;
  }

  /** The reserved labels, in any case. */
  lemma OperatingSystemLabels(text: string)
    ensures IsOperatingSystemLabel(text) <==> Lower(text) == "linux" || Lower(text) == "windows" || Lower(text) == "macos"
  {
    assert Lower("Linux") == "linux" && Lower("Windows") == "windows" && Lower("macOS") == "macos";
  }

  lemma SettingsAreThere(c: Config)
    requires SettingsPresent(c)
    ensures TrimSpace(c.subscriptionID) != "" && TrimSpace(c.resourceGroup) != "" && TrimSpace(c.location) != ""
    ensures TrimSpace(c.subnetID) != "" && TrimSpace(c.vmSize) != "" && TrimSpace(c.vmAdminUser) != ""
    ensures TrimSpace(c.runnerVersion) != "" && TrimSpace(c.runnerSHA256) != ""
  {
    var all := [c.subscriptionID, c.resourceGroup, c.location, c.subnetID, c.vmSize, c.vmAdminUser, c.runnerVersion, c.runnerSHA256];
    assert all[0] in all && all[1] in all && all[2] in all && all[3] in all;
    assert all[4] in all && all[5] in all && all[6] in all && all[7] in all;
  }

  /** The limits are sharp: nothing inside them is refused for a number. */
  lemma NumbersInRangeFit(c: Config)
    requires c.minRunners == 0 && 0 <= c.maxRunners <= 2147483647 && 1 <= c.concurrency <= 32
    requires c.reconcileSeconds >= 15 && c.idleSeconds >= 300 && c.maxAgeSeconds >= 3600
    ensures NumbersFit(c)
  {
  }

  /** A label of a resolved configuration that names a Windows profile tells the
      machine and the disk behind it, and no other name of that form is accepted. */
  lemma NamedProfilesFixTheMachine(j: Judge, c: Config, p: Config, l: string)
    requires Accepted(j, c) && p in Configs(c) && l in p.labels && WINDOWS_PROFILE <= Lower(TrimSpace(l))
    ensures p.osType == "Windows"
    ensures (p.vmSize, EffectiveOSDiskSize(p)) ==
      match Lower(TrimSpace(l))
      case "avp-windows-m" => ("Standard_D2s_v5", Some(128))
      case "avp-windows-mp" => ("Standard_D2s_v5", Some(512))
      case "avp-windows-l" => ("Standard_D4s_v5", Some(128))
      case "avp-windows-lp" => ("Standard_D4s_v5", Some(512))
      case "avp-windows-xl" => ("Standard_D8s_v5", Some(128))
      case "avp-windows-xlp" => ("Standard_D8s_v5", Some(512))
      case _ => ("", None)
  {
    ResolvedConfigsFit(j, c, p);
    ProfileNames(Lower(TrimSpace(l)));
    assert ProfileHonest(p, l);
  }

  lemma ProfileNames(text: string)
    requires WINDOWS_PROFILE <= text
    ensures WindowsProfile(text[|WINDOWS_PROFILE|..]) ==
      match text
      case "avp-windows-m" => Some(("Standard_D2s_v5", 128))
      case "avp-windows-mp" => Some(("Standard_D2s_v5", 512))
      case "avp-windows-l" => Some(("Standard_D4s_v5", 128))
      case "avp-windows-lp" => Some(("Standard_D4s_v5", 512))
      case "avp-windows-xl" => Some(("Standard_D8s_v5", 128))
      case "avp-windows-xlp" => Some(("Standard_D8s_v5", 512))
      case _ => None
  {
    var suffix := text[|WINDOWS_PROFILE|..];
    assert text == WINDOWS_PROFILE + suffix;
    assert WINDOWS_PROFILE + "m" == "avp-windows-m" && WINDOWS_PROFILE + "mp" == "avp-windows-mp";
    assert WINDOWS_PROFILE + "l" == "avp-windows-l" && WINDOWS_PROFILE + "lp" == "avp-windows-lp";
    assert WINDOWS_PROFILE + "xl" == "avp-windows-xl" && WINDOWS_PROFILE + "xlp" == "avp-windows-xlp";
    assert "avp-windows-m"[|WINDOWS_PROFILE|..] == "m" && "avp-windows-mp"[|WINDOWS_PROFILE|..] == "mp";
    assert "avp-windows-l"[|WINDOWS_PROFILE|..] == "l" && "avp-windows-lp"[|WINDOWS_PROFILE|..] == "lp";
    assert "avp-windows-xl"[|WINDOWS_PROFILE|..] == "xl" && "avp-windows-xlp"[|WINDOWS_PROFILE|..] == "xlp";
  }

  /** A listener advertises exactly the configured labels that are no operating
      system, trimmed, and its own operating system. */
  lemma {:induction false} ProfileLabelsAreTheConfigured(labels: seq<string>)
    ensures forall a :: a in ProfileLabels(labels) <==> exists l :: l in labels && !IsOperatingSystemLabel(TrimSpace(l)) && a == TrimSpace(l)
  {
    if labels != [] {
      var front, last := labels[..|labels| - 1], labels[|labels| - 1];
      ProfileLabelsAreTheConfigured(front);
      assert labels == front + [last];
      assert forall l :: l in labels <==> l in front || l == last;
    }
  }

  /** Resolving a resolved configuration gives it back unchanged. */
  lemma ResolvingAgainChangesNothing(j: Judge, c: Config, p: Config)
    requires Accepted(j, c) && p in Configs(c)
    ensures Accepted(j, p) && Configs(p) == [p]
  {
    ResolvedConfigsFit(j, c, p);
  }

  lemma {:induction false} SomeProfileLabel(labels: seq<string>, l: string)
    requires l in labels && !IsOperatingSystemLabel(TrimSpace(l))
    ensures ProfileLabels(labels) != []
  {
    var front := labels[..|labels| - 1];
    assert labels == front + [labels[|labels| - 1]];
    if l in front {
      SomeProfileLabel(front, l);
    }
  }

  /** Each listener advertises profile labels first, at least one, and then the one
      operating system label of its type. */
  lemma AdvertisesProfilesThenSystem(j: Judge, c: Config, p: Config)
    requires Accepted(j, c) && p in Configs(c)
    ensures var all := Advertised(p);
      && |all| >= 2 && all[|all| - 1] == p.osType && (p.osType == "Linux" || p.osType == "Windows")
      && forall i :: 0 <= i < |all| ==> (IsOperatingSystemLabel(all[i]) <==> i == |all| - 1)
  {
    ResolvedConfigsFit(j, c, p);
    KeysAreTheFoldedProfileLabels(p.labels);
    assert LabelsFit(p);
    var l :| l in p.labels && !IsOperatingSystemLabel(TrimSpace(l));
    SomeProfileLabel(p.labels, l);
  }

  /** A listener serves a job when it advertises every label the job asks for. */
  ghost predicate Serves(c: Config, job: seq<string>) {
    forall l :: l in job ==> exists a :: a in Advertised(c) && EqualFold(a, l)
  }

  lemma ServedLabelIsAKey(c: Config, job: seq<string>, l: string)
    requires Serves(c, job) && l in job && !IsOperatingSystemLabel(l)
    requires c.osType == "Linux" || c.osType == "Windows"
    ensures Lower(l) in Keys(c.labels)
  {
    var a :| a in Advertised(c) && EqualFold(a, l);
    KeysAreTheFoldedProfileLabels(c.labels);
    assert a != OperatingSystemLabel(c);
    var i :| 0 <= i < |ProfileLabels(c.labels)| && ProfileLabels(c.labels)[i] == a;
    assert Keys(c.labels)[i] == Lower(l);
  }

  lemma ListenersShareNoKey(c: Config, m: nat, n: nat)
    requires Distinct(AllKeys(c, c.pools)) && m < n < |EnabledConfigs(c, c.pools)|
    ensures var all := EnabledConfigs(c, c.pools);
      KeySet(Keys(all[m].labels)) !! KeySet(Keys(all[n].labels))
  {
    var at := EnabledAreInOrder(c, c.pools);
    ProfileLabelsAreDistinct(c, c.pools, at[m], at[n]);
  }

  lemma ListenerServesByKey(j: Judge, c: Config, n: nat, job: seq<string>, l: string)
    requires Accepted(j, c) && n < |Configs(c)| && Serves(Configs(c)[n], job) && l in job && !IsOperatingSystemLabel(l)
    ensures Lower(l) in KeySet(Keys(Configs(c)[n].labels))
  {
    ResolvedConfigsFit(j, c, Configs(c)[n]);
    ServedLabelIsAKey(Configs(c)[n], job, l);
  }

  /** Routing is unambiguous: a job that asks for anything besides an operating
      system is served by at most one of the resolved listeners. */
  lemma OneListenerPerJob(j: Judge, c: Config, m: nat, n: nat, job: seq<string>, l: string)
    requires Accepted(j, c) && m < |Configs(c)| && n < |Configs(c)|
    requires Serves(Configs(c)[m], job) && Serves(Configs(c)[n], job)
    requires l in job && !IsOperatingSystemLabel(l)
    ensures m == n
  {
    ListenerServesByKey(j, c, m, job, l);
    ListenerServesByKey(j, c, n, job, l);
    if m < n {
      ListenersShareNoKey(c, m, n);
    } else if n < m {
      ListenersShareNoKey(c, n, m);
    }
  }
}
