/** What the controller finds in Azure: the pages of one resource listing, and
    the runners made out of the three listings. One listing reads every page at
    most once, so a page graph that is fixed while it runs loses nothing. */
module Inventory {
  import opened Common
  import opened ResourceNames

  type Tags = map<string, string>

  datatype Resource = Resource(name: string, tags: Tags)

  datatype Page = Page(value: seq<Resource>, nextLink: string)

  /** One kind of resource: a URL that is no key cannot be read or decoded. */
  datatype Source = Source(first: string, pages: map<string, Page>, valid: string -> bool)

  datatype Failure = InvalidURL | RepeatedPage | Unreadable

  const MANAGED_BY := "managed-by"
  const CONTROLLER := "gha-runner-scale-controller"
  const SCALE_SET := "runner-scale-set"
  const RUNNER_NAME := "github-runner-name"
  const CREATED_AT := "runner-created-at"
  const DEPLOYMENT_STATE := "runner-windows-deployment"

  function Tag(r: Resource, key: string): string {
    if key in r.tags then r.tags[key] else ""
  }

  /** The value a tag has for the controller; a missing tag reads as empty. */
  predicate HasTag(r: Resource, key: string, value: string) {
    if key in r.tags then r.tags[key] == value else value == ""
  }

  /** What marks a resource as one of this pool's. */
  predicate BelongsTo(pool: string, r: Resource) {
    HasTag(r, "managed-by", "gha-runner-scale-controller") && HasTag(r, "runner-scale-set", pool)
  }

  predicate Owned(pool: string, r: Resource) {
    Tag(r, MANAGED_BY) == CONTROLLER && Tag(r, SCALE_SET) == pool
  }

  // ---- Following the links -------------------------------------------------

  predicate Readable(s: Source, url: string) {
    url != "" && s.valid(url) && url in s.pages
  }

  /** The links starting at `url` come to an end within `n` pages. */
  predicate Ends(s: Source, url: string, n: nat)
    decreases n
  {
    url == "" || (n > 0 && Readable(s, url) && Ends(s, s.pages[url].nextLink, n - 1))
  }

  ghost predicate Finite(s: Source, url: string) {
    exists n: nat :: Ends(s, url, n)
  }

  lemma FiniteStep(s: Source, url: string)
    requires Readable(s, url)
    ensures Finite(s, url) <==> Finite(s, s.pages[url].nextLink)
  {
    if Finite(s, url) {
      var n: nat :| Ends(s, url, n);
      assert Ends(s, s.pages[url].nextLink, n - 1);
    }
    if Finite(s, s.pages[url].nextLink) {
      var n: nat :| Ends(s, s.pages[url].nextLink, n);
      assert Ends(s, url, n + 1);
    }
  }

  /** From inside a set of pages whose links stay in it there is no way out. */
  lemma {:induction false} NoWayOut(s: Source, inside: set<string>, url: string, n: nat)
    requires forall u :: u in inside ==> Readable(s, u) && s.pages[u].nextLink in inside
    requires url in inside
    ensures !Ends(s, url, n)
    decreases n
  {
    if n > 0 {
      NoWayOut(s, inside, s.pages[url].nextLink, n - 1);
    }
  }

  /** The pages visited so far: a path of distinct readable pages to `next`. */
  ghost predicate Path(s: Source, walk: seq<string>, next: string) {
    && (forall i :: 0 <= i < |walk| ==> Readable(s, walk[i]))
    && (forall i, j :: 0 <= i < j < |walk| ==> walk[i] != walk[j])
    && (forall i :: 0 <= i < |walk| - 1 ==> walk[i + 1] == s.pages[walk[i]].nextLink)
    && next == (if walk == [] then s.first else s.pages[walk[|walk| - 1]].nextLink)
    && (walk != [] ==> walk[0] == s.first)
  }

  lemma RepeatedIsEndless(s: Source, walk: seq<string>, next: string)
    requires Path(s, walk, next) && next in walk
    ensures !Finite(s, next)
  {
    var k :| 0 <= k < |walk| && walk[k] == next;
    var inside := set i | k <= i < |walk| :: walk[i];
    forall u | u in inside ensures Readable(s, u) && s.pages[u].nextLink in inside {
      var i :| k <= i < |walk| && walk[i] == u;
      if i < |walk| - 1 {
        assert walk[i + 1] in inside;
      }
    }
    forall n: nat ensures !Ends(s, next, n) {
      NoWayOut(s, inside, next, n);
    }
  }

  lemma PathExtends(s: Source, walk: seq<string>, url: string)
    requires Path(s, walk, url) && Readable(s, url) && url !in walk
    ensures Path(s, walk + [url], s.pages[url].nextLink)
  {
  }

  lemma ItemsExtend(s: Source, walk: seq<string>, url: string)
    requires url in s.pages
    ensures Items(s, walk + [url]) == Items(s, walk) + s.pages[url].value
  {
    assert (walk + [url])[..|walk|] == walk;
  }

  function Items(s: Source, walk: seq<string>): seq<Resource> {
    if walk == [] then [] else
      Items(s, walk[..|walk| - 1]) +
      (if walk[|walk| - 1] in s.pages then s.pages[walk[|walk| - 1]].value else [])
  }

  // ---- First occurrences ---------------------------------------------------

  function Names(rs: seq<Resource>): set<string> {
    set r | r in rs :: r.name
  }

  function Firsts(pool: string, items: seq<Resource>): seq<Resource> {
    if items == [] then [] else
      var before := Firsts(pool, items[..|items| - 1]);
      var r := items[|items| - 1];
      if Owned(pool, r) && r.name !in Names(before) then before + [r] else before
  }

  ghost predicate First(pool: string, items: seq<Resource>, i: int) {
    && 0 <= i < |items| && Owned(pool, items[i])
    && forall j :: 0 <= j < i && Owned(pool, items[j]) ==> items[j].name != items[i].name
  }

  ghost predicate Picks(pool: string, items: seq<Resource>, at: seq<int>, picked: seq<Resource>) {
    && |at| == |picked|
    && (forall k :: 0 <= k < |at| ==> First(pool, items, at[k]) && picked[k] == items[at[k]])
    && (forall k, l :: 0 <= k < l < |at| ==> at[k] < at[l])
    && (forall i :: First(pool, items, i) ==> i in at)
  }

  lemma {:induction false} NamesCoverOwned(pool: string, items: seq<Resource>)
    ensures Names(Firsts(pool, items)) == set r | r in items && Owned(pool, r) :: r.name
  {
    if items != [] {
      var front, r := items[..|items| - 1], items[|items| - 1];
      NamesCoverOwned(pool, front);
      assert items == front + [r];
      var before := Firsts(pool, front);
      assert Names(before + [r]) == Names(before) + {r.name};
    }
  }

  lemma FirstAtTheEnd(pool: string, front: seq<Resource>, r: Resource)
    ensures First(pool, front + [r], |front|) <==> Owned(pool, r) && r.name !in Names(Firsts(pool, front))
  {
    NamesCoverOwned(pool, front);
    if Owned(pool, r) && r.name in Names(Firsts(pool, front)) {
      var q :| q in front && Owned(pool, q) && q.name == r.name;
      var j :| 0 <= j < |front| && front[j] == q;
      assert (front + [r])[j] == q;
    }
    if Owned(pool, r) && r.name !in Names(Firsts(pool, front)) {
      forall j | 0 <= j < |front| && Owned(pool, (front + [r])[j]) ensures (front + [r])[j].name != r.name {
        assert front[j] in front;
      }
    }
  }

  lemma FirstIsStable(pool: string, front: seq<Resource>, r: Resource, i: nat)
    requires i < |front|
    ensures First(pool, front + [r], i) <==> First(pool, front, i)
  {
    var items := front + [r];
    assert forall j :: 0 <= j <= i ==> items[j] == front[j];
  }

  lemma PicksCarryOver(pool: string, front: seq<Resource>, r: Resource, at: seq<int>, picked: seq<Resource>)
    requires Picks(pool, front, at, picked)
    ensures if First(pool, front + [r], |front|) then Picks(pool, front + [r], at + [|front|], picked + [r])
            else Picks(pool, front + [r], at, picked)
  {
    var items := front + [r];
    forall i | 0 <= i < |front| ensures First(pool, items, i) <==> First(pool, front, i) {
      FirstIsStable(pool, front, r, i);
    }
    assert (at + [|front|])[|at|] == |front|;
    assert forall i :: i in at ==> i in at + [|front|];
  }

  /** The result is exactly the first owned resource of every name, in the order
      of the listing. */
  lemma {:induction false} FirstsAreTheFirstOccurrences(pool: string, items: seq<Resource>) returns (at: seq<int>)
    ensures Picks(pool, items, at, Firsts(pool, items))
  {
    if items == [] {
      at := [];
      return;
    }
    var front, r := items[..|items| - 1], items[|items| - 1];
    at := FirstsAreTheFirstOccurrences(pool, front);
    assert items == front + [r];
    FirstAtTheEnd(pool, front, r);
    PicksCarryOver(pool, front, r, at, Firsts(pool, front));
    if First(pool, items, |front|) {
      at := at + [|front|];
    }
  }

  lemma FirstsHaveDistinctNames(pool: string, items: seq<Resource>)
    ensures forall k, l :: 0 <= k < l < |Firsts(pool, items)| ==> Firsts(pool, items)[k].name != Firsts(pool, items)[l].name
  {
    var at := FirstsAreTheFirstOccurrences(pool, items);
  }

  lemma {:induction false} FirstsOfConcatenation(pool: string, items: seq<Resource>, r: Resource)
    ensures Firsts(pool, items + [r]) ==
            if Owned(pool, r) && r.name !in Names(Firsts(pool, items)) then Firsts(pool, items) + [r] else Firsts(pool, items)
  {
    assert (items + [r])[..|items|] == items;
  }

  lemma {:induction false} ItemsAreOnThePages(s: Source, walk: seq<string>, r: Resource)
    requires forall i :: 0 <= i < |walk| ==> walk[i] in s.pages
    ensures r in Items(s, walk) <==> exists u :: u in walk && r in s.pages[u].value
  {
    if walk != [] {
      var front, u := walk[..|walk| - 1], walk[|walk| - 1];
      assert walk == front + [u];
      ItemsAreOnThePages(s, front, r);
      assert Items(s, walk) == Items(s, front) + s.pages[u].value;
    }
  }

  /** Everything listed belongs to the pool, and of everything on the pages that
      does, the name is listed. */
  ghost predicate CoversThePool(pool: string, s: Source, walk: seq<string>, rs: seq<Resource>) {
    && (forall r :: r in rs ==> BelongsTo(pool, r) && exists u :: u in walk && u in s.pages && r in s.pages[u].value)
    && (forall u, r :: u in walk && u in s.pages && r in s.pages[u].value && BelongsTo(pool, r) ==> r.name in Names(rs))
  }

  lemma ListingCoversThePool(pool: string, s: Source, walk: seq<string>)
    requires forall i :: 0 <= i < |walk| ==> walk[i] in s.pages
    ensures CoversThePool(pool, s, walk, Firsts(pool, Items(s, walk)))
  {
    var items := Items(s, walk);
    var rs := Firsts(pool, items);
    NamesCoverOwned(pool, items);
    var at := FirstsAreTheFirstOccurrences(pool, items);
    forall r | r in rs ensures BelongsTo(pool, r) && exists u :: u in walk && u in s.pages && r in s.pages[u].value {
      var k :| 0 <= k < |rs| && rs[k] == r;
      assert First(pool, items, at[k]) && r in items;
      ItemsAreOnThePages(s, walk, r);
    }
    forall u, r | u in walk && u in s.pages && r in s.pages[u].value && BelongsTo(pool, r) ensures r.name in Names(rs) {
      ItemsAreOnThePages(s, walk, r);
      assert Owned(pool, r) && r in items;
    }
  }

  /** Lists this pool's resources of one kind. It fails exactly when the links
      never end or reach a page that cannot be used. */
  method ListTaggedResources(pool: string, s: Source) returns (r: Result<seq<Resource>, Failure>, ghost walk: seq<string>, ghost next: string)
    ensures r.Ok? <==> Finite(s, s.first)
    ensures Path(s, walk, next)
    ensures r.Ok? ==> next == "" && r.value == Firsts(pool, Items(s, walk)) && CoversThePool(pool, s, walk, r.value)
    ensures r == Err(RepeatedPage) ==> next in walk
    ensures r == Err(InvalidURL) ==> next != "" && !s.valid(next)
    ensures r == Err(Unreadable) ==> next != "" && s.valid(next) && next !in s.pages
  {
    var url := s.first;
    var seenPages: set<string>, seenNames: set<string> := {}, {};
    var result: seq<Resource> := [];
    walk, next := [], url;
    assert s.first == "" ==> Ends(s, "", 0);
    while url != ""
      invariant next == url && Path(s, walk, url)
      invariant forall u :: u in seenPages <==> u in walk
      invariant seenPages <= s.pages.Keys
      invariant result == Firsts(pool, Items(s, walk)) && seenNames == Names(result)
      invariant Finite(s, s.first) <==> Finite(s, url)
      decreases |s.pages.Keys - seenPages|
    {
      if !s.valid(url) {
        r := Err(InvalidURL);
        return;
      }
      if url in seenPages {
        RepeatedIsEndless(s, walk, url);
        r := Err(RepeatedPage);
        return;
      }
      if url !in s.pages {
        r := Err(Unreadable);
        return;
      }
      FiniteStep(s, url);
      seenPages := seenPages + {url};
      var page := s.pages[url];
      ghost var before := Items(s, walk);
      result, seenNames := Collect(pool, before, page.value, result, seenNames);
      PathExtends(s, walk, url);
      ItemsExtend(s, walk, url);
      walk := walk + [url];
      url := page.nextLink;
      next := url;
    }
    assert Ends(s, "", 0);
    ListingCoversThePool(pool, s, walk);
    r := Ok(result);
  }

  lemma NamesExtend(rs: seq<Resource>, r: Resource)
    ensures Names(rs + [r]) == Names(rs) + {r.name}
  {
  }

  /** The loop over one page. */
  method Collect(pool: string, ghost before: seq<Resource>, value: seq<Resource>, soFar: seq<Resource>, known: set<string>)
    returns (result: seq<Resource>, seenNames: set<string>)
    requires soFar == Firsts(pool, before) && known == Names(soFar)
    ensures result == Firsts(pool, before + value) && seenNames == Names(result)
  {
    result, seenNames := soFar, known;
    assert before + value[..0] == before;
    for i := 0 to |value|
      invariant result == Firsts(pool, before + value[..i]) && seenNames == Names(result)
    {
      var r := value[i];
      FirstsOfConcatenation(pool, before + value[..i], r);
      assert before + value[..i + 1] == before + value[..i] + [r];
      if Owned(pool, r) && r.name !in seenNames {
        NamesExtend(result, r);
        seenNames := seenNames + {r.name};
        result := result + [r];
      }
    }
    assert value[..|value|] == value;
  }

  // ---- Runners -------------------------------------------------------------

  datatype Power = Known(code: string) | Unknown

  datatype PowerRead = State(code: string) | Gone | Unread

  datatype RunnerVM = RunnerVM(runnerName: string, vmName: string, createdAt: string, power: Power)

  function VmNames(rows: seq<RunnerVM>): set<string> {
    set row | row in rows :: row.vmName
  }

  ghost predicate DistinctVms(rows: seq<RunnerVM>) {
    forall i, j :: 0 <= i < j < |rows| ==> rows[i].vmName != rows[j].vmName
  }

  function LiveRow(vm: Resource, power: PowerRead): RunnerVM {
    RunnerVM(Tag(vm, RUNNER_NAME), vm.name, Tag(vm, CREATED_AT), if power.State? then Known(power.code) else Unknown)
  }

  function OrphanRow(r: Resource): RunnerVM {
    RunnerVM(Tag(r, RUNNER_NAME), ResourceName(Tag(r, RUNNER_NAME)), Tag(r, CREATED_AT), Unknown)
  }

  /** The virtual machines whose network still names its runner. */
  function RunnerNamed(rs: seq<Resource>): set<string> {
    set r | r in rs && Tag(r, RUNNER_NAME) != "" :: ResourceName(Tag(r, RUNNER_NAME))
  }

  predicate Settled(r: Resource) {
    Tag(r, DEPLOYMENT_STATE) == "terminal" || Tag(r, DEPLOYMENT_STATE) == "not-submitted"
  }

  /** The name a network resource puts in doubt: its submission is undecided. */
  function Doubt(windows: bool, r: Resource): set<string> {
    if windows && Tag(r, RUNNER_NAME) != "" && !Settled(r) then {ResourceName(Tag(r, RUNNER_NAME))} else {}
  }

  function Doubted(windows: bool, rs: seq<Resource>): set<string> {
    set r, n | r in rs && n in Doubt(windows, r) :: n
  }

  function LiveNames(vms: seq<Resource>, power: string -> PowerRead): set<string> {
    set vm | vm in vms && power(vm.name) != Gone :: vm.name
  }

  function LiveRows(vms: seq<Resource>, power: string -> PowerRead): seq<RunnerVM> {
    if vms == [] then [] else
      var before := LiveRows(vms[..|vms| - 1], power);
      var vm := vms[|vms| - 1];
      if power(vm.name) == Gone then before else before + [LiveRow(vm, power(vm.name))]
  }

  function WithOrphans(rows: seq<RunnerVM>, rs: seq<Resource>): seq<RunnerVM> {
    if rs == [] then rows else
      var before := WithOrphans(rows, rs[..|rs| - 1]);
      var r := rs[|rs| - 1];
      if Tag(r, RUNNER_NAME) == "" || OrphanRow(r).vmName in VmNames(before) then before else before + [OrphanRow(r)]
  }

  /** What a manager remembers after names have been stored if absent. */
  function Remembering(known: map<string, bool>, names: set<string>): map<string, bool> {
    map n | n in known.Keys + names :: if n in known then known[n] else true
  }

  lemma RememberingMore(known: map<string, bool>, names: set<string>, more: set<string>)
    ensures Remembering(Remembering(known, names), more) == Remembering(known, names + more)
  {
  }

  lemma LiveRowsExtend(vms: seq<Resource>, vm: Resource, power: string -> PowerRead)
    ensures LiveRows(vms + [vm], power) ==
            if power(vm.name) == Gone then LiveRows(vms, power) else LiveRows(vms, power) + [LiveRow(vm, power(vm.name))]
    ensures LiveNames(vms + [vm], power) == LiveNames(vms, power) + if power(vm.name) == Gone then {} else {vm.name}
  {
    assert (vms + [vm])[..|vms|] == vms;
  }

  lemma WithOrphansExtends(rows: seq<RunnerVM>, rs: seq<Resource>, r: Resource)
    ensures WithOrphans(rows, rs + [r]) ==
            if Tag(r, RUNNER_NAME) == "" || OrphanRow(r).vmName in VmNames(WithOrphans(rows, rs)) then WithOrphans(rows, rs)
            else WithOrphans(rows, rs) + [OrphanRow(r)]
  {
    assert (rs + [r])[..|rs|] == rs;
  }

  lemma DoubtedExtends(windows: bool, rs: seq<Resource>, r: Resource)
    ensures Doubted(windows, rs + [r]) == Doubted(windows, rs) + Doubt(windows, r)
  {
  }

  lemma VmNamesExtend(rows: seq<RunnerVM>, row: RunnerVM)
    ensures VmNames(rows + [row]) == VmNames(rows) + {row.vmName}
  {
  }

  lemma {:induction false} OrphansInTwoParts(rows: seq<RunnerVM>, rs: seq<Resource>, more: seq<Resource>)
    ensures WithOrphans(rows, rs + more) == WithOrphans(WithOrphans(rows, rs), more)
  {
    if more == [] {
      assert rs + more == rs;
    } else {
      var front, r := more[..|more| - 1], more[|more| - 1];
      OrphansInTwoParts(rows, rs, front);
      assert rs + more == (rs + front) + [r];
      WithOrphansExtends(rows, rs + front, r);
    }
  }

  /** The row of a virtual machine: its runner and creation as tagged, and exactly
      the power state that was read. */
  predicate ShowsLive(vm: Resource, read: PowerRead, row: RunnerVM) {
    && row.vmName == vm.name
    && HasTag(vm, "github-runner-name", row.runnerName) && HasTag(vm, "runner-created-at", row.createdAt)
    && (read.State? ==> row.power == Known(read.code)) && (!read.State? ==> row.power == Unknown)
  }

  /** The row of what a network resource is left of: the VM its runner would have,
      in an unknown state. */
  predicate ShowsOrphan(r: Resource, row: RunnerVM) {
    && row.runnerName != "" && HasTag(r, "github-runner-name", row.runnerName)
    && row.vmName == ResourceName(row.runnerName)
    && HasTag(r, "runner-created-at", row.createdAt) && row.power == Unknown
  }

  /** Rows for exactly the virtual machines that are not known to be gone. */
  ghost predicate LiveTable(vms: seq<Resource>, power: string -> PowerRead, rows: seq<RunnerVM>) {
    && DistinctVms(rows) && VmNames(rows) == LiveNames(vms, power)
    && forall row :: row in rows ==> exists vm :: vm in vms && power(vm.name) != Gone && ShowsLive(vm, power(vm.name), row)
  }

  lemma DistinctExtends(rows: seq<RunnerVM>, row: RunnerVM)
    requires DistinctVms(rows) && row.vmName !in VmNames(rows)
    ensures DistinctVms(rows + [row])
  {
    assert forall i :: 0 <= i < |rows| ==> rows[i] in rows;
  }

  lemma {:induction false} LiveRowsAreALiveTable(vms: seq<Resource>, power: string -> PowerRead)
    requires forall k, l :: 0 <= k < l < |vms| ==> vms[k].name != vms[l].name
    ensures LiveTable(vms, power, LiveRows(vms, power))
  {
    if vms != [] {
      var front, vm := vms[..|vms| - 1], vms[|vms| - 1];
      LiveRowsAreALiveTable(front, power);
      assert vms == front + [vm];
      LiveRowsExtend(front, vm, power);
      if power(vm.name) != Gone {
        var rows := LiveRows(front, power);
        VmNamesExtend(rows, LiveRow(vm, power(vm.name)));
        assert forall v :: v in front ==> v.name != vm.name;
        assert ShowsLive(vm, power(vm.name), LiveRow(vm, power(vm.name)));
        DistinctExtends(rows, LiveRow(vm, power(vm.name)));
      }
    }
  }

  ghost predicate OrphansOf(rs: seq<Resource>, rows: seq<RunnerVM>) {
    forall row :: row in rows ==> exists r :: r in rs && ShowsOrphan(r, row)
  }

  /** `all` keeps the given rows in front and adds one for every other runner
      that the network resources name. */
  ghost predicate Completes(rows: seq<RunnerVM>, rs: seq<Resource>, all: seq<RunnerVM>) {
    && DistinctVms(all)
    && VmNames(all) == VmNames(rows) + RunnerNamed(rs)
    && |rows| <= |all| && all[..|rows|] == rows && OrphansOf(rs, all[|rows|..])
  }

  lemma RunnerNamedExtends(rs: seq<Resource>, r: Resource)
    ensures RunnerNamed(rs + [r]) == RunnerNamed(rs) + if Tag(r, RUNNER_NAME) == "" then {} else {OrphanRow(r).vmName}
  {
  }

  lemma StillComplete(rows: seq<RunnerVM>, rs: seq<Resource>, r: Resource, all: seq<RunnerVM>)
    requires Completes(rows, rs, all)
    requires Tag(r, RUNNER_NAME) == "" || OrphanRow(r).vmName in VmNames(all)
    ensures Completes(rows, rs + [r], all)
  {
    RunnerNamedExtends(rs, r);
    assert forall q :: q in rs ==> q in rs + [r];
  }

  lemma CompleteWithRow(rows: seq<RunnerVM>, rs: seq<Resource>, r: Resource, all: seq<RunnerVM>)
    requires Completes(rows, rs, all)
    requires Tag(r, RUNNER_NAME) != "" && OrphanRow(r).vmName !in VmNames(all)
    ensures Completes(rows, rs + [r], all + [OrphanRow(r)])
  {
    RunnerNamedExtends(rs, r);
    VmNamesExtend(all, OrphanRow(r));
    DistinctExtends(all, OrphanRow(r));
    var more := all + [OrphanRow(r)];
    assert ShowsOrphan(r, OrphanRow(r));
    assert more[..|rows|] == all[..|rows|] && more[|rows|..] == all[|rows|..] + [OrphanRow(r)];
    assert r in rs + [r];
  }

  /** Nothing the network names is lost, listed twice or invented. */
  lemma {:induction false} OrphansCompleteTheTable(rows: seq<RunnerVM>, rs: seq<Resource>)
    requires DistinctVms(rows)
    ensures Completes(rows, rs, WithOrphans(rows, rs))
  {
    if rs != [] {
      var front, r := rs[..|rs| - 1], rs[|rs| - 1];
      OrphansCompleteTheTable(rows, front);
      assert rs == front + [r];
      var before := WithOrphans(rows, front);
      if Tag(r, RUNNER_NAME) == "" || OrphanRow(r).vmName in VmNames(before) {
        StillComplete(rows, front, r, before);
      } else {
        CompleteWithRow(rows, front, r, before);
      }
    }
  }

  /** `rs` is what a listing that came to its end found. */
  ghost predicate Listed(pool: string, s: Source, rs: seq<Resource>) {
    exists walk :: Path(s, walk, "") && rs == Firsts(pool, Items(s, walk)) && CoversThePool(pool, s, walk, rs)
  }

  ghost predicate ListedTwice(pool: string, s: Source, t: Source, rs: seq<Resource>) {
    exists k :: 0 <= k <= |rs| && Listed(pool, s, rs[..k]) && Listed(pool, t, rs[k..])
  }

  ghost predicate IsInventory(rows: seq<RunnerVM>, vms: seq<Resource>, network: seq<Resource>, power: string -> PowerRead) {
    && DistinctVms(rows)
    && VmNames(rows) == LiveNames(vms, power) + RunnerNamed(network)
    && (exists k :: 0 <= k <= |rows| && LiveTable(vms, power, rows[..k]) && OrphansOf(network, rows[k..]))
  }

  /** Nobody is missing from an inventory. */
  lemma InventoryCoversAll(rows: seq<RunnerVM>, vms: seq<Resource>, network: seq<Resource>, power: string -> PowerRead,
                           r: Resource, name: string)
    requires IsInventory(rows, vms, network, power)
    ensures r in vms && power(r.name) != Gone ==> r.name in VmNames(rows)
    ensures r in network && name != "" && HasTag(r, "github-runner-name", name) ==> ResourceName(name) in VmNames(rows)
  {
    if r in network && name != "" && HasTag(r, "github-runner-name", name) {
      assert Tag(r, RUNNER_NAME) == name;
    }
  }

  /** The submission for `n` is undecided as far as this network resource says. */
  predicate Undecided(r: Resource, n: string) {
    && "github-runner-name" in r.tags && r.tags["github-runner-name"] != "" && ResourceName(r.tags["github-runner-name"]) == n
    && !HasTag(r, "runner-windows-deployment", "terminal") && !HasTag(r, "runner-windows-deployment", "not-submitted")
  }

  ghost predicate IsNoted(windows: bool, vms: seq<Resource>, network: seq<Resource>, power: string -> PowerRead, n: string) {
    && windows
    && ((exists vm :: vm in vms && vm.name == n && power(vm.name) != Gone) || (exists r :: r in network && Undecided(r, n)))
  }

  lemma NotedExactly(windows: bool, vms: seq<Resource>, network: seq<Resource>, power: string -> PowerRead, n: string)
    ensures n in (if windows then LiveNames(vms, power) else {}) + Doubted(windows, network) <==> IsNoted(windows, vms, network, power, n)
  {
    assert forall r :: n in Doubt(windows, r) <==> windows && Undecided(r, n);
  }

  /** What was known stays as it was; what is new is in doubt, and is exactly noted. */
  ghost predicate OnlyNewDoubts(before: map<string, bool>, after: map<string, bool>, noted: set<string>) {
    && (forall n :: n in before ==> n in after && after[n] == before[n])
    && (forall n :: n in after && n !in before ==> after[n] && n in noted)
    && (forall n :: n in noted ==> n in after)
  }

  lemma NetworkIsListed(pool: string, windows: bool, s: Source, t: Source, nics: seq<Resource>, ips: seq<Resource>)
    requires Listed(pool, s, nics) && Listed(pool, t, ips)
    ensures ListedTwice(pool, s, t, nics + ips)
    ensures Doubted(windows, nics + ips) == Doubted(windows, nics) + Doubted(windows, ips)
  {
    var rs := nics + ips;
    assert rs[..|nics|] == nics && rs[|nics|..] == ips;
  }

  lemma InventoryIsComplete(pool: string, compute: Source, vms: seq<Resource>, network: seq<Resource>, power: string -> PowerRead)
    requires Listed(pool, compute, vms)
    ensures IsInventory(WithOrphans(LiveRows(vms, power), network), vms, network, power)
  {
    var walk :| Path(compute, walk, "") && vms == Firsts(pool, Items(compute, walk));
    FirstsHaveDistinctNames(pool, Items(compute, walk));
    var live := LiveRows(vms, power);
    LiveRowsAreALiveTable(vms, power);
    OrphansCompleteTheTable(live, network);
    var rows := WithOrphans(live, network);
    assert LiveTable(vms, power, rows[..|live|]) && OrphansOf(network, rows[|live|..]);
  }

  method ListKind(pool: string, s: Source) returns (r: Result<seq<Resource>, Failure>)
    ensures r.Ok? <==> Finite(s, s.first)
    ensures r.Ok? ==> Listed(pool, s, r.value)
  {
    ghost var walk, next;
    r, walk, next := ListTaggedResources(pool, s);
  }

  class Manager {
    const pool: string
    const windows: bool
    var deployments: map<string, bool>

    constructor (pool: string, windows: bool)
      ensures this.pool == pool && this.windows == windows && deployments == map[]
    {
      this.pool, this.windows := pool, windows;
      deployments := map[];
    }

    method LoadOrStore(name: string)
      modifies this`deployments
      ensures deployments == Remembering(old(deployments), {name})
    {
      if name !in deployments {
        deployments := deployments[name := true];
      }
    }

    method ListLive(vms: seq<Resource>, power: string -> PowerRead) returns (result: seq<RunnerVM>, seen: set<string>)
      modifies this`deployments
      ensures result == LiveRows(vms, power) && seen == VmNames(result)
      ensures deployments == Remembering(old(deployments), if windows then LiveNames(vms, power) else {})
    {
      result, seen := [], {};
      for i := 0 to |vms|
        invariant result == LiveRows(vms[..i], power) && seen == VmNames(result)
        invariant deployments == Remembering(old(deployments), if windows then LiveNames(vms[..i], power) else {})
      {
        var vm := vms[i];
        assert vms[..i + 1] == vms[..i] + [vm];
        var read := power(vm.name);
        LiveRowsExtend(vms[..i], vm, power);
        VmNamesExtend(result, LiveRow(vm, read));
        RememberingMore(old(deployments), if windows then LiveNames(vms[..i], power) else {}, {vm.name});
        if read == Gone {
          continue;
        }
        seen := seen + {vm.name};
        if windows {
          LoadOrStore(vm.name);
        }
        result := result + [LiveRow(vm, read)];
      }
      assert vms[..|vms|] == vms;
    }

    /** Keeps a positive doubt that a later lagging read must not erase. */
    method RememberUndecided(r: Resource, vmName: string)
      requires Tag(r, RUNNER_NAME) != "" && vmName == ResourceName(Tag(r, RUNNER_NAME))
      modifies this`deployments
      ensures deployments == Remembering(old(deployments), Doubt(windows, r))
    {
      if windows {
        var marker := Tag(r, DEPLOYMENT_STATE);
        if marker != "terminal" && marker != "not-submitted" {
          LoadOrStore(vmName);
        }
      }
    }

    method AddOrphans(rs: seq<Resource>, rows: seq<RunnerVM>, known: set<string>) returns (result: seq<RunnerVM>, seen: set<string>)
      requires known == VmNames(rows)
      modifies this`deployments
      ensures result == WithOrphans(rows, rs) && seen == VmNames(result)
      ensures deployments == Remembering(old(deployments), Doubted(windows, rs))
    {
      result, seen := rows, known;
      for i := 0 to |rs|
        invariant result == WithOrphans(rows, rs[..i]) && seen == VmNames(result)
        invariant deployments == Remembering(old(deployments), Doubted(windows, rs[..i]))
      {
        var r := rs[i];
        assert rs[..i + 1] == rs[..i] + [r];
        WithOrphansExtends(rows, rs[..i], r);
        VmNamesExtend(result, OrphanRow(r));
        DoubtedExtends(windows, rs[..i], r);
        RememberingMore(old(deployments), Doubted(windows, rs[..i]), Doubt(windows, r));
        var runnerName := Tag(r, RUNNER_NAME);
        if runnerName == "" {
          continue;
        }
        var vmName := AzureResourceName(runnerName);
        RememberUndecided(r, vmName);
        if vmName in seen {
          continue;
        }
        seen := seen + {vmName};
        result := result + [OrphanRow(r)];
      }
      assert rs[..|rs|] == rs;
    }

    /** The second half of an inventory: what failed creations left behind. */
    method AddNetwork(nics: Source, ips: Source, live: seq<RunnerVM>, known: set<string>)
      returns (r: Result<seq<RunnerVM>, Failure>, ghost network: seq<Resource>, ghost noted: set<string>)
      requires known == VmNames(live)
      modifies this`deployments
      ensures r.Ok? <==> Finite(nics, nics.first) && Finite(ips, ips.first)
      ensures r.Ok? ==> ListedTwice(pool, nics, ips, network) && r.value == WithOrphans(live, network)
      ensures deployments == Remembering(old(deployments), noted) && (r.Ok? ==> noted == Doubted(windows, network))
      ensures !windows ==> noted == {}
    {
      network, noted := [], {};
      var interfaces := ListKind(pool, nics);
      if interfaces.Err? {
        r := Err(interfaces.error);
        return;
      }
      var rows, seen := AddOrphans(interfaces.value, live, known);
      noted := Doubted(windows, interfaces.value);
      var addresses := ListKind(pool, ips);
      if addresses.Err? {
        r := Err(addresses.error);
        return;
      }
      rows, seen := AddOrphans(addresses.value, rows, seen);
      RememberingMore(old(deployments), noted, Doubted(windows, addresses.value));
      network := interfaces.value + addresses.value;
      noted := Doubted(windows, network);
      NetworkIsListed(pool, windows, nics, ips, interfaces.value, addresses.value);
      OrphansInTwoParts(live, interfaces.value, addresses.value);
      r := Ok(rows);
    }

    /** One inventory of the pool. It fails exactly when one of its three listings
        does; otherwise every live virtual machine and every runner named by a
        surviving network resource has exactly one row. Doubt about submissions
        is recorded only for names nothing is remembered about. */
    method List(compute: Source, nics: Source, ips: Source, power: string -> PowerRead)
      returns (r: Result<seq<RunnerVM>, Failure>, ghost vms: seq<Resource>, ghost network: seq<Resource>, ghost noted: set<string>)
      modifies this`deployments
      ensures r.Ok? <==> Finite(compute, compute.first) && Finite(nics, nics.first) && Finite(ips, ips.first)
      ensures r.Ok? ==> Listed(pool, compute, vms) && ListedTwice(pool, nics, ips, network)
      ensures r.Ok? ==> IsInventory(r.value, vms, network, power)
      ensures deployments == Remembering(old(deployments), noted)
      ensures OnlyNewDoubts(old(deployments), deployments, noted)
      ensures r.Ok? ==> forall n :: n in noted <==> IsNoted(windows, vms, network, power, n)
      ensures !windows ==> noted == {}
    {
      vms, network, noted := [], [], {};
      var machines := ListKind(pool, compute);
      if machines.Err? {
        r := Err(machines.error);
        return;
      }
      vms := machines.value;
      var live, seen := ListLive(machines.value, power);
      noted := if windows then LiveNames(vms, power) else {};
      ghost var doubts;
      r, network, doubts := AddNetwork(nics, ips, live, seen);
      RememberingMore(old(deployments), noted, doubts);
      noted := noted + doubts;
      InventoryIsComplete(pool, compute, vms, network, power);
      forall n ensures r.Ok? ==> (n in noted <==> IsNoted(windows, vms, network, power, n)) {
        NotedExactly(windows, vms, network, power, n);
      }
    }
  }
}
