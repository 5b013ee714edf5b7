/**
 * The worker allocator of wicked_zerg_challenger/local_training/resource_manager.py.
 *
 * The game is a snapshot `World`: the allocator only reads it and queues
 * commands (`bot.do`), and nothing it queues takes effect before the next
 * game step, so every stage of one optimisation pass sees the same world.
 * Each source routine is a method with the source's loops; each method is
 * specified by a function on the world that states the command list it
 * queues, and the properties of the allocator are proved about those
 * functions.
 */
module Resources {
  import opened Wrappers
  import opened SeqUtil

  // ---------------------------------------------------------------------
  // The world snapshot

  datatype Pos = Pos(x: real, y: real)

  function DistSq(a: Pos, b: Pos): real {
    (a.x - b.x) * (a.x - b.x) + (a.y - b.y) * (a.y - b.y)
  }

  /** A drone's current order target: none, a unit tag, or a map position. */
  datatype OrderTarget = NoTarget | UnitTag(tag: int) | Location(pos: Pos)

  /** Python truthiness of `drone.order_target`: a tag is falsy only when 0, a point is always truthy. */
  predicate Truthy(t: OrderTarget) {
    match t
    case NoTarget => false
    case UnitTag(tag) => tag != 0
    case Location(_) => true
  }

  datatype Drone = Drone(tag: int, isIdle: bool, isGathering: bool, orderTarget: OrderTarget, pos: Pos)

  /** A town hall, a mineral field or an extractor. */
  datatype Site = Site(tag: int, pos: Pos, isReady: bool, assignedHarvesters: int, idealHarvesters: int)

  /** The bot's view: the clock (absent when the bot has no `time`), own drones, town halls, mineral fields and extractors. */
  datatype World = World(time: Option<real>, drones: seq<Drone>, townhalls: seq<Site>, minerals: seq<Site>, extractors: seq<Site>)

  /** A queued order: gather from the unit with the given tag, or move to a position. */
  datatype Command = Gather(unit: int, target: int) | Move(unit: int, dest: Pos)

  const WorkersPerBase := 16
  const WorkersPerGas := 3
  const IdleBatch := 10
  const MineralRadius: real := 15.0
  const ExtractorRadius: real := 10.0
  const FarFromBase: real := 20.0

  // ---------------------------------------------------------------------
  // Unit selections

  /** The site filters the allocator applies; a radius is given squared, so `closer_than(r)` is `DistSq < r * r`. */
  datatype SiteFilter = Within(center: Pos, radiusSq: real) | Ready | ReadyWithin(rcenter: Pos, rradiusSq: real) | OtherThan(tag: int)

  predicate SiteAdmits(f: SiteFilter, s: Site) {
    match f
    case Within(c, rsq) => DistSq(s.pos, c) < rsq
    case Ready => s.isReady
    case ReadyWithin(c, rsq) => s.isReady && DistSq(s.pos, c) < rsq
    case OtherThan(tag) => s.tag != tag
  }

  /** The sites admitted by `f`, in their original order (`closer_than`, `.ready`, a list comprehension). */
  function SelectSites(ss: seq<Site>, f: SiteFilter): (r: seq<Site>)
    ensures |r| <= |ss|
    ensures forall i :: 0 <= i < |r| ==> SiteAdmits(f, r[i])
  {
    if |ss| == 0 then []
    else SelectSites(ss[..|ss| - 1], f) + (if SiteAdmits(f, ss[|ss| - 1]) then [ss[|ss| - 1]] else [])
  }

  /** A selection keeps every admitted site. */
  lemma {:induction false} SelectSitesKeeps(ss: seq<Site>, f: SiteFilter, s: Site)
    requires s in ss && SiteAdmits(f, s)
    ensures s in SelectSites(ss, f)
  {
    if ss[|ss| - 1] != s {
      assert s in ss[..|ss| - 1];
      SelectSitesKeeps(ss[..|ss| - 1], f, s);
    }
  }

  /** Selection distributes over concatenation, so it keeps the sites' relative order. */
  lemma {:induction false} SelectSitesAppend(a: seq<Site>, b: seq<Site>, f: SiteFilter)
    ensures SelectSites(a + b, f) == SelectSites(a, f) + SelectSites(b, f)
  {
    if |b| == 0 {
      assert a + b == a;
    } else {
      var n := |b| - 1;
      SelectSitesAppend(a, b[..n], f);
      var ab := a + b;
      assert ab[..|ab| - 1] == a + b[..n];
      assert ab[|ab| - 1] == b[n];
    }
  }

  /** A selection only draws sites from the list, each at most as often as it occurs there. */
  lemma {:induction false} SelectSitesDrawn(ss: seq<Site>, f: SiteFilter)
    ensures multiset(SelectSites(ss, f)) <= multiset(ss)
  {
    if |ss| > 0 {
      var n := |ss| - 1;
      SelectSitesDrawn(ss[..n], f);
      assert ss == ss[..n] + [ss[n]];
    }
  }

  /** No site of `ss` is admitted by `f`. */
  predicate NoneAdmitted(ss: seq<Site>, f: SiteFilter) {
    forall j :: 0 <= j < |ss| ==> !SiteAdmits(f, ss[j])
  }

  /** Position `k` holds the first site of `ss` that `f` admits. */
  predicate FirstAt(ss: seq<Site>, f: SiteFilter, k: int) {
    0 <= k < |ss| && SiteAdmits(f, ss[k]) && forall j :: 0 <= j < k ==> !SiteAdmits(f, ss[j])
  }

  /** `s` is the first site of `ss`, in list order, that `f` admits. */
  predicate FirstAdmitted(ss: seq<Site>, f: SiteFilter, s: Site) {
    exists k :: 0 <= k < |ss| && FirstAt(ss, f, k) && ss[k] == s
  }

  /** A selection is empty exactly when no site is admitted. */
  lemma {:induction false} SelectSitesNone(ss: seq<Site>, f: SiteFilter)
    ensures |SelectSites(ss, f)| == 0 <==> NoneAdmitted(ss, f)
  {
    if |ss| > 0 {
      var n := |ss| - 1;
      SelectSitesNone(ss[..n], f);
      assert forall j :: 0 <= j < n ==> ss[j] == ss[..n][j];
    }
  }

  /** The first admitted site of the front of a list is the first admitted site of the list. */
  lemma FirstAtExtends(ss: seq<Site>, f: SiteFilter, k: int)
    requires |ss| > 0 && FirstAt(ss[..|ss| - 1], f, k)
    ensures FirstAt(ss, f, k) && ss[k] == ss[..|ss| - 1][k]
  {
    var front := ss[..|ss| - 1];
    assert forall j :: 0 <= j < k ==> ss[j] == front[j];
  }

  /** When no site of the front is admitted and the last one is, the last one is the first admitted. */
  lemma FirstAtLast(ss: seq<Site>, f: SiteFilter)
    requires |ss| > 0 && NoneAdmitted(ss[..|ss| - 1], f) && SiteAdmits(f, ss[|ss| - 1])
    ensures FirstAt(ss, f, |ss| - 1)
  {
    var front := ss[..|ss| - 1];
    assert forall j :: 0 <= j < |ss| - 1 ==> ss[j] == front[j];
  }

  /** The head of a selection is the first admitted site; the selection is empty exactly when none is admitted. */
  lemma {:induction false} SelectSitesFirst(ss: seq<Site>, f: SiteFilter)
    ensures |SelectSites(ss, f)| == 0 <==> NoneAdmitted(ss, f)
    ensures |SelectSites(ss, f)| > 0 ==> FirstAdmitted(ss, f, SelectSites(ss, f)[0])
  {
    SelectSitesNone(ss, f);
    if |ss| > 0 {
      var n := |ss| - 1;
      var front := ss[..n];
      var rf := SelectSites(front, f);
      if |rf| > 0 {
        SelectSitesFirst(front, f);
        var k :| 0 <= k < |front| && FirstAt(front, f, k) && front[k] == rf[0];
        FirstAtExtends(ss, f, k);
        assert SelectSites(ss, f)[0] == rf[0];
      } else if SiteAdmits(f, ss[n]) {
        SelectSitesNone(front, f);
        FirstAtLast(ss, f);
        assert SelectSites(ss, f)[0] == ss[n];
      }
    }
  }

  /** `units.closer_than(15, p)` over the mineral fields. */
  function MineralsNear(w: World, p: Pos): (ms: seq<Site>)
    ensures forall i :: 0 <= i < |ms| ==> DistSq(ms[i].pos, p) < 225.0
  {
    SelectSites(w.minerals, Within(p, MineralRadius * MineralRadius))
  }

  /** `structures(EXTRACTOR).closer_than(10, p)`, ready or not. */
  function ExtractorsNear(w: World, p: Pos): (es: seq<Site>)
    ensures forall i :: 0 <= i < |es| ==> DistSq(es[i].pos, p) < 100.0
  {
    SelectSites(w.extractors, Within(p, ExtractorRadius * ExtractorRadius))
  }

  /** Index of the first site nearest to `p` (`closest_to` keeps the first of equals). */
  function ClosestIndex(ss: seq<Site>, p: Pos): (k: nat)
    requires |ss| > 0
    ensures k < |ss|
  {
    if |ss| == 1 then 0
    else
      var k := ClosestIndex(ss[..|ss| - 1], p);
      if DistSq(ss[|ss| - 1].pos, p) < DistSq(ss[k].pos, p) then |ss| - 1 else k
  }

  /** `closest_to(p)` over a non-empty selection. */
  function ClosestTo(ss: seq<Site>, p: Pos): Site
    requires |ss| > 0
  {
    ss[ClosestIndex(ss, p)]
  }

  /** No site is nearer than the chosen one, and every site before it is strictly farther. */
  lemma {:induction false} ClosestIsNearest(ss: seq<Site>, p: Pos)
    requires |ss| > 0
    ensures var k := ClosestIndex(ss, p);
      (forall j :: 0 <= j < |ss| ==> DistSq(ss[k].pos, p) <= DistSq(ss[j].pos, p))
      && (forall j :: 0 <= j < k ==> DistSq(ss[j].pos, p) > DistSq(ss[k].pos, p))
  {
    if |ss| > 1 {
      var front := ss[..|ss| - 1];
      ClosestIsNearest(front, p);
      var k0 := ClosestIndex(front, p);
      assert forall j :: 0 <= j < |front| ==> ss[j] == front[j];
      assert ss[k0] == front[k0];
    }
  }

  /** The drone's order targets the tag of one of `ms`. */
  predicate TargetsOneOf(d: Drone, ms: seq<Site>) {
    |ms| > 0 && (d.orderTarget == UnitTag(ms[0].tag) || TargetsOneOf(d, ms[1..]))
  }

  /** The recursive test is the search it stands for: some field carries the order's tag. */
  lemma {:induction false} TargetsOneOfExists(d: Drone, ms: seq<Site>)
    ensures TargetsOneOf(d, ms) <==> exists j :: 0 <= j < |ms| && d.orderTarget == UnitTag(ms[j].tag)
  {
    if |ms| > 0 {
      TargetsOneOfExists(d, ms[1..]);
      if TargetsOneOf(d, ms[1..]) {
        var j :| 0 <= j < |ms[1..]| && d.orderTarget == UnitTag(ms[1..][j].tag);
        assert ms[j + 1] == ms[1..][j];
      }
      if exists j :: 0 <= j < |ms| && d.orderTarget == UnitTag(ms[j].tag) {
        var j :| 0 <= j < |ms| && d.orderTarget == UnitTag(ms[j].tag);
        if j > 0 {
          assert ms[1..][j - 1] == ms[j];
        }
      }
    }
  }

  /** Gathering, with a truthy target that is one of the fields `ms` (the loop-and-break test). */
  predicate MinesFrom(d: Drone, ms: seq<Site>) {
    d.isGathering && Truthy(d.orderTarget) && |ms| > 0 && TargetsOneOf(d, ms)
  }

  /** The drone filters the allocator applies. */
  datatype DroneFilter =
    | Idle
    | MinersOf(fields: seq<Site>)
    | FreeFor(basePos: Pos)
    | FreeForGas(nearFields: seq<Site>)
    | GasWorkerOf(extractor: int)
    | GathersAnyOf(tags: set<int>)

  predicate DroneAdmits(f: DroneFilter, d: Drone) {
    match f
    case Idle => d.isIdle
    case MinersOf(ms) => MinesFrom(d, ms)
    case FreeFor(p) => d.isIdle || (!d.isGathering && DistSq(d.pos, p) > FarFromBase * FarFromBase)
    case FreeForGas(ms) => d.isIdle || MinesFrom(d, ms)
    case GasWorkerOf(tag) => d.isGathering && d.orderTarget == UnitTag(tag)
    case GathersAnyOf(tags) => d.isGathering && Truthy(d.orderTarget) && d.orderTarget.UnitTag? && d.orderTarget.tag in tags
  }

  /** The drones admitted by `f`, in drone order. */
  function SelectDrones(ds: seq<Drone>, f: DroneFilter): (r: seq<Drone>)
    ensures |r| <= |ds|
    ensures forall i :: 0 <= i < |r| ==> DroneAdmits(f, r[i])
  {
    if |ds| == 0 then []
    else SelectDrones(ds[..|ds| - 1], f) + (if DroneAdmits(f, ds[|ds| - 1]) then [ds[|ds| - 1]] else [])
  }

  /** A drone selection keeps every admitted drone. */
  lemma {:induction false} SelectDronesKeeps(ds: seq<Drone>, f: DroneFilter, d: Drone)
    requires d in ds && DroneAdmits(f, d)
    ensures d in SelectDrones(ds, f)
  {
    if ds[|ds| - 1] != d {
      assert d in ds[..|ds| - 1];
      SelectDronesKeeps(ds[..|ds| - 1], f, d);
    }
  }

  /** Drone selection distributes over concatenation, so it keeps drone order. */
  lemma {:induction false} SelectDronesAppend(a: seq<Drone>, b: seq<Drone>, f: DroneFilter)
    ensures SelectDrones(a + b, f) == SelectDrones(a, f) + SelectDrones(b, f)
  {
    if |b| == 0 {
      assert a + b == a;
    } else {
      var n := |b| - 1;
      SelectDronesAppend(a, b[..n], f);
      var ab := a + b;
      assert ab[..|ab| - 1] == a + b[..n];
      assert ab[|ab| - 1] == b[n];
    }
  }

  /** A drone selection only draws drones from the list, each at most as often as it occurs there. */
  lemma {:induction false} SelectDronesDrawn(ds: seq<Drone>, f: DroneFilter)
    ensures multiset(SelectDrones(ds, f)) <= multiset(ds)
  {
    if |ds| > 0 {
      var n := |ds| - 1;
      SelectDronesDrawn(ds[..n], f);
      assert ds == ds[..n] + [ds[n]];
    }
  }

  /** The positions in `ds` of the drones `f` admits. */
  function AdmittedDrones(ds: seq<Drone>, f: DroneFilter): set<int> {
    set i | 0 <= i < |ds| && DroneAdmits(f, ds[i])
  }

  /** The admitted positions of a non-empty list: those of its front, and the last one if admitted. */
  lemma AdmittedDronesSplit(ds: seq<Drone>, f: DroneFilter)
    requires |ds| > 0
    ensures var n := |ds| - 1;
      AdmittedDrones(ds, f) == AdmittedDrones(ds[..n], f) + (if DroneAdmits(f, ds[n]) then {n} else {})
      && n !in AdmittedDrones(ds[..n], f)
  {
    var n := |ds| - 1;
    var front := AdmittedDrones(ds[..n], f);
    var extra: set<int> := if DroneAdmits(f, ds[n]) then {n} else {};
    forall i | i in AdmittedDrones(ds, f)
      ensures i in front + extra
    {
      if i < n {
        assert ds[..n][i] == ds[i];
      }
    }
    forall i | i in front
      ensures i in AdmittedDrones(ds, f)
    {
      assert ds[..n][i] == ds[i];
    }
  }

  /** A selection holds one entry per admitted position: each drone is taken once. */
  lemma {:induction false} SelectDronesCount(ds: seq<Drone>, f: DroneFilter)
    ensures |SelectDrones(ds, f)| == |AdmittedDrones(ds, f)|
  {
    if |ds| == 0 {
      assert AdmittedDrones(ds, f) == {};
    } else {
      SelectDronesCount(ds[..|ds| - 1], f);
      AdmittedDronesSplit(ds, f);
    }
  }

  /** Each drone of `ds` sent to the field of `ms` closest to it. */
  function GatherClosest(ds: seq<Drone>, ms: seq<Site>): (cmds: seq<Command>)
    requires |ms| > 0
    ensures |cmds| == |ds|
    ensures forall i :: 0 <= i < |ds| ==> cmds[i] == Gather(ds[i].tag, ClosestTo(ms, ds[i].pos).tag)
  {
    if |ds| == 0 then []
    else GatherClosest(ds[..|ds| - 1], ms) + [Gather(ds[|ds| - 1].tag, ClosestTo(ms, ds[|ds| - 1].pos).tag)]
  }

  /** Each drone of `ds` sent to the unit `target`. */
  function GatherAll(ds: seq<Drone>, target: int): (cmds: seq<Command>)
    ensures |cmds| == |ds|
    ensures forall i :: 0 <= i < |ds| ==> cmds[i] == Gather(ds[i].tag, target)
  {
    if |ds| == 0 then []
    else GatherAll(ds[..|ds| - 1], target) + [Gather(ds[|ds| - 1].tag, target)]
  }

  /** `for mineral in minerals: if drone.order_target == mineral.tag: ... break`. */
  method TargetsMineral(d: Drone, ms: seq<Site>) returns (found: bool)
    ensures found <==> TargetsOneOf(d, ms)
  {
    found := false;
    var j := 0;
    while j < |ms|
      invariant 0 <= j <= |ms|
      invariant !found
      invariant TargetsOneOf(d, ms) == TargetsOneOf(d, ms[j..])
    {
      assert ms[j..][1..] == ms[j + 1..];
      if d.orderTarget == UnitTag(ms[j].tag) {
        found := true;
        break;
      }
      j := j + 1;
    }
  }

  // ---------------------------------------------------------------------
  // Counting workers (`_count_mineral_workers`, `_count_gas_workers`)

  /**
   * The scan shared by `_reassign_excess_workers` and
   * `_move_worker_between_bases`: every gathering drone with a truthy order
   * target naming one of `minerals`, in drone order.
   */
  method CollectMiners(w: World, minerals: seq<Site>) returns (found: seq<Drone>)
    ensures found == SelectDrones(w.drones, MinersOf(minerals))
  {
    found := [];
    var i := 0;
    while i < |w.drones|
      invariant 0 <= i <= |w.drones|
      invariant found == SelectDrones(w.drones[..i], MinersOf(minerals))
    {
      var drone := w.drones[i];
      if drone.isGathering && Truthy(drone.orderTarget) && |minerals| > 0 {
        var hit := TargetsMineral(drone, minerals);
        if hit {
          found := found + [drone];
        }
      }
      assert w.drones[..i + 1][..i] == w.drones[..i];
      i := i + 1;
    }
    assert w.drones[..|w.drones|] == w.drones;
  }

  /** The drones mining one of the fields within 15 of the base, in drone order. */
  function MineralWorkers(w: World, base: Site): seq<Drone> {
    SelectDrones(w.drones, MinersOf(MineralsNear(w, base.pos)))
  }

  /** The tags of a list of sites. */
  function TagSet(ss: seq<Site>): set<int> {
    set i | 0 <= i < |ss| :: ss[i].tag
  }

  /**
   * The workers counted at a base: the number of drones (each counted once)
   * that are gathering with a truthy order target naming a field within 15.
   */
  function MineralWorkerCount(w: World, base: Site): (n: nat)
    ensures n == |AdmittedDrones(w.drones, MinersOf(MineralsNear(w, base.pos)))|
    ensures |MineralsNear(w, base.pos)| == 0 ==> n == 0
  {
    SelectDronesCount(w.drones, MinersOf(MineralsNear(w, base.pos)));
    if |MineralsNear(w, base.pos)| == 0 then
      NoMinersWithoutFields(w.drones, MineralsNear(w, base.pos));
      |MineralWorkers(w, base)|
    else |MineralWorkers(w, base)|
  }

  lemma {:induction false} NoMinersWithoutFields(ds: seq<Drone>, ms: seq<Site>)
    requires |ms| == 0
    ensures SelectDrones(ds, MinersOf(ms)) == []
  {
    if |ds| > 0 {
      NoMinersWithoutFields(ds[..|ds| - 1], ms);
    }
  }

  /**
   * The gas workers counted at a base: the number of drones (each counted
   * once) gathering with an order target that is the tag of an extractor
   * within 10 of the base; none without such an extractor.
   */
  function GasWorkerCount(w: World, base: Site): (n: nat)
    ensures n == |AdmittedDrones(w.drones, GathersAnyOf(TagSet(ExtractorsNear(w, base.pos))))|
    ensures |ExtractorsNear(w, base.pos)| == 0 ==> n == 0
  {
    var ex := ExtractorsNear(w, base.pos);
    SelectDronesCount(w.drones, GathersAnyOf(TagSet(ex)));
    if |w.drones| == 0 || |ex| == 0 then
      assert TagSet(ex) == {} || |w.drones| == 0;
      assert SelectDrones(w.drones, GathersAnyOf(TagSet(ex))) == [];
      0
    else |SelectDrones(w.drones, GathersAnyOf(TagSet(ex)))|
  }

  method CountMineralWorkers(w: World, base: Site) returns (count: nat)
    ensures count == MineralWorkerCount(w, base)
  {
    if |w.drones| == 0 {
      return 0;
    }
    count := 0;
    var ms := MineralsNear(w, base.pos);
    var i := 0;
    while i < |w.drones|
      invariant 0 <= i <= |w.drones|
      invariant count == |SelectDrones(w.drones[..i], MinersOf(ms))|
    {
      var d := w.drones[i];
      if d.isGathering && Truthy(d.orderTarget) {
        if |ms| > 0 {
          var hit := TargetsMineral(d, ms);
          if hit {
            count := count + 1;
          }
        }
      }
      assert w.drones[..i + 1][..i] == w.drones[..i];
      i := i + 1;
    }
    assert w.drones[..|w.drones|] == w.drones;
  }

  method CountGasWorkers(w: World, base: Site) returns (count: nat)
    ensures count == GasWorkerCount(w, base)
  {
    if |w.drones| == 0 {
      return 0;
    }
    var extractors := ExtractorsNear(w, base.pos);
    if |extractors| == 0 {
      return 0;
    }
    count := 0;
    var tags := TagSet(extractors);
    var i := 0;
    while i < |w.drones|
      invariant 0 <= i <= |w.drones|
      invariant count == |SelectDrones(w.drones[..i], GathersAnyOf(tags))|
    {
      var d := w.drones[i];
      if d.isGathering && Truthy(d.orderTarget) {
        if d.orderTarget.UnitTag? && d.orderTarget.tag in tags {
          count := count + 1;
        }
      }
      assert w.drones[..i + 1][..i] == w.drones[..i];
      i := i + 1;
    }
    assert w.drones[..|w.drones|] == w.drones;
  }

  // ---------------------------------------------------------------------
  // `BaseResourceInfo` and `_analyze_base_resources`

  datatype BaseResourceInfo = BaseResourceInfo(
    base: Site,
    mineralWorkers: nat,
    gasWorkers: nat,
    totalWorkers: nat,
    targetMineralWorkers: int,
    targetGasWorkers: nat,
    mineralsNearby: nat,
    extractors: seq<Site>)

  /** The ready extractors within 10 of a base. */
  function ReadyExtractorsNear(w: World, base: Site): seq<Site> {
    SelectSites(ExtractorsNear(w, base.pos), Ready)
  }

  /**
   * The analysis of one base: three gas workers per ready extractor within
   * 10, the rest of sixteen for minerals, and the counted workers.
   */
  function AnalyzeBase(w: World, base: Site): (info: BaseResourceInfo)
    ensures info.base == base
    ensures info.extractors == ExtractorsNear(w, base.pos)
    ensures info.targetGasWorkers == WorkersPerGas * |ReadyExtractorsNear(w, base)|
    ensures info.targetGasWorkers <= WorkersPerGas * |info.extractors|
    ensures info.targetMineralWorkers + info.targetGasWorkers == WorkersPerBase
    ensures info.totalWorkers == info.mineralWorkers + info.gasWorkers <= 2 * |w.drones|
    ensures info.mineralWorkers == MineralWorkerCount(w, base) && info.gasWorkers == GasWorkerCount(w, base)
    ensures info.extractors == [] ==> info.gasWorkers == 0
    ensures info.mineralsNearby == |MineralsNear(w, base.pos)|
  {
    var ex := ExtractorsNear(w, base.pos);
    var targetGas := |ReadyExtractorsNear(w, base)| * WorkersPerGas;
    var mineral := MineralWorkerCount(w, base);
    var gas := GasWorkerCount(w, base);
    BaseResourceInfo(base, mineral, gas, mineral + gas, WorkersPerBase - targetGas, targetGas,
                     |MineralsNear(w, base.pos)|, ex)
  }

  /** The total workers of a base, as the analysis reports it. */
  function TotalWorkers(w: World, base: Site): nat {
    AnalyzeBase(w, base).totalWorkers
  }

  // ---------------------------------------------------------------------
  // Step 1: idle workers (`_handle_idle_workers`)

  function IdleDrones(w: World): seq<Drone> {
    SelectDrones(w.drones, Idle)
  }

  /**
   * The order for one idle drone: the field closest to it among those within
   * 15 of its nearest town hall, or a move to that town hall when it has none.
   */
  function IdleCommand(w: World, d: Drone): (c: Command)
    requires |w.townhalls| > 0
    ensures c.unit == d.tag
    ensures var ms := MineralsNear(w, ClosestTo(w.townhalls, d.pos).pos);
      (c.Gather? <==> |ms| > 0)
      && (c.Gather? ==> c.target == ClosestTo(ms, d.pos).tag)
      && (c.Move? ==> c.dest == ClosestTo(w.townhalls, d.pos).pos)
  {
    var nearest := ClosestTo(w.townhalls, d.pos);
    var ms := MineralsNear(w, nearest.pos);
    if |ms| > 0 then Gather(d.tag, ClosestTo(ms, d.pos).tag) else Move(d.tag, nearest.pos)
  }

  function IdleOrders(w: World, ds: seq<Drone>): (cmds: seq<Command>)
    requires |w.townhalls| > 0
    ensures |cmds| == |ds|
    ensures forall i :: 0 <= i < |ds| ==> cmds[i] == IdleCommand(w, ds[i])
  {
    if |ds| == 0 then []
    else IdleOrders(w, ds[..|ds| - 1]) + [IdleCommand(w, ds[|ds| - 1])]
  }

  /** At most ten orders, one for each of the first idle drones, in drone order. */
  function IdleCommands(w: World): (cmds: seq<Command>)
    ensures |cmds| <= IdleBatch
    ensures |w.townhalls| == 0 ==> cmds == []
    ensures |w.townhalls| > 0 ==> |cmds| == Min(IdleBatch, |IdleDrones(w)|)
    ensures |w.townhalls| > 0 ==>
      forall i :: 0 <= i < |cmds| ==> IdleDrones(w)[i].isIdle && cmds[i] == IdleCommand(w, IdleDrones(w)[i])
  {
    var idle := IdleDrones(w);
    if |w.drones| == 0 || |idle| == 0 || |w.townhalls| == 0 then []
    else IdleOrders(w, Take(idle, IdleBatch))
  }

  /**
   * An idle drone's gather order names the field nearest to it among those
   * within 15 of the town hall nearest to it.
   */
  lemma IdleOrderGoesToNearestField(w: World, d: Drone)
    requires |w.townhalls| > 0
    ensures var base := ClosestTo(w.townhalls, d.pos);
      var ms := MineralsNear(w, base.pos);
      var c := IdleCommand(w, d);
      (forall j :: 0 <= j < |w.townhalls| ==> DistSq(base.pos, d.pos) <= DistSq(w.townhalls[j].pos, d.pos))
      && (c.Gather? ==>
            && |ms| > 0
            && DistSq(ClosestTo(ms, d.pos).pos, base.pos) < 225.0
            && c.target == ClosestTo(ms, d.pos).tag
            && (forall j :: 0 <= j < |ms| ==> DistSq(ClosestTo(ms, d.pos).pos, d.pos) <= DistSq(ms[j].pos, d.pos)))
  {
    ClosestIsNearest(w.townhalls, d.pos);
    var ms := MineralsNear(w, ClosestTo(w.townhalls, d.pos).pos);
    if |ms| > 0 {
      ClosestIsNearest(ms, d.pos);
    }
  }

  /** The body of the per-drone `try` block of `_handle_idle_workers`. */
  method IdleOrderFor(w: World, drone: Drone) returns (c: Command)
    requires |w.townhalls| > 0
    ensures c == IdleCommand(w, drone)
  {
    var nearest := ClosestTo(w.townhalls, drone.pos);
    var minerals := MineralsNear(w, nearest.pos);
    if |minerals| > 0 {
      var mineral := ClosestTo(minerals, drone.pos);
      c := Gather(drone.tag, mineral.tag);
    } else {
      c := Move(drone.tag, nearest.pos);
    }
  }

  lemma IdleOrdersStep(w: World, ds: seq<Drone>, i: nat)
    requires |w.townhalls| > 0 && i < |ds|
    ensures IdleOrders(w, ds[..i + 1]) == IdleOrders(w, ds[..i]) + [IdleCommand(w, ds[i])]
  {
    assert ds[..i + 1][..i] == ds[..i];
  }

  method HandleIdleWorkers(w: World) returns (cmds: seq<Command>)
    ensures cmds == IdleCommands(w)
  {
    cmds := [];
    if |w.drones| == 0 {
      return;
    }
    var idle := SelectDrones(w.drones, Idle);
    if |idle| == 0 {
      return;
    }
    if |w.townhalls| == 0 {
      return;
    }
    var batch := Take(idle, IdleBatch);
    var i := 0;
    while i < |batch|
      invariant 0 <= i <= |batch|
      invariant cmds == IdleOrders(w, batch[..i])
    {
      var c := IdleOrderFor(w, batch[i]);
      IdleOrdersStep(w, batch, i);
      cmds := cmds + [c];
      i := i + 1;
    }
    assert batch[..|batch|] == batch;
    assert IdleCommands(w) == IdleOrders(w, batch);
  }

  // ---------------------------------------------------------------------
  // Step 2: per-base distribution (`_optimize_base_worker_distribution`)

  /**
   * `target_minerals`, given the analysis' `target_gas_workers`: the source
   * multiplies by three workers per extractor a second time and then clamps
   * to 14..16.
   */
  function TargetMinerals(targetGasWorkers: int): (t: int)
    ensures 14 <= t <= 16
  {
    var raw := WorkersPerBase - targetGasWorkers * WorkersPerGas;
    Max(14, Min(raw, 16))
  }

  /**
   * Sixteen mineral workers without a ready extractor, fourteen with one or
   * more; multiplying once, as the comment intends, gives the same targets.
   */
  lemma TargetMineralsByExtractors(ready: nat)
    ensures TargetMinerals(WorkersPerGas * ready) == (if ready == 0 then 16 else 14)
    ensures TargetMinerals(WorkersPerGas * ready) == Max(14, Min(WorkersPerBase - WorkersPerGas * ready, 16))
  {
  }

  /** The drones `_assign_workers_to_minerals` may take: idle, or not gathering and farther than 20. */
  function FreeDrones(w: World, base: Site): seq<Drone> {
    SelectDrones(w.drones, FreeFor(base.pos))
  }

  /**
   * `_assign_workers_to_minerals(base, count)`: the first `count` free drones,
   * in drone order, each sent to its closest field within 15 of the base.
   */
  function AssignToMineralsOrders(w: World, base: Site, count: int): (cmds: seq<Command>)
    ensures count <= 0 || |MineralsNear(w, base.pos)| == 0 ==> cmds == []
    ensures count > 0 && |MineralsNear(w, base.pos)| > 0 ==> |cmds| == Min(count, |FreeDrones(w, base)|)
    ensures forall i :: 0 <= i < |cmds| ==>
      var d := FreeDrones(w, base)[i];
      (d.isIdle || (!d.isGathering && DistSq(d.pos, base.pos) > 400.0))
      && cmds[i] == Gather(d.tag, ClosestTo(MineralsNear(w, base.pos), d.pos).tag)
  {
    var ms := MineralsNear(w, base.pos);
    if count <= 0 || |w.drones| == 0 || |ms| == 0 then []
    else GatherClosest(Take(FreeDrones(w, base), count), ms)
  }

  /** The order loop shared by the mineral moves: each drone to the field of `ms` closest to it. */
  method SendToClosest(ds: seq<Drone>, ms: seq<Site>) returns (cmds: seq<Command>)
    requires |ms| > 0
    ensures cmds == GatherClosest(ds, ms)
  {
    cmds := [];
    var j := 0;
    while j < |ds|
      invariant 0 <= j <= |ds|
      invariant cmds == GatherClosest(ds[..j], ms)
    {
      var mineral := ClosestTo(ms, ds[j].pos);
      cmds := cmds + [Gather(ds[j].tag, mineral.tag)];
      assert ds[..j + 1][..j] == ds[..j];
      j := j + 1;
    }
    assert ds[..|ds|] == ds;
  }

  /** The scan of `bot.workers` for drones that are idle, or not gathering and farther than 20 from the base. */
  method CollectFreeDrones(w: World, base: Site) returns (available: seq<Drone>)
    ensures available == FreeDrones(w, base)
  {
    available := [];
    var i := 0;
    while i < |w.drones|
      invariant 0 <= i <= |w.drones|
      invariant available == SelectDrones(w.drones[..i], FreeFor(base.pos))
    {
      var drone := w.drones[i];
      if drone.isIdle {
        available := available + [drone];
      } else if !drone.isGathering {
        if DistSq(drone.pos, base.pos) > FarFromBase * FarFromBase {
          available := available + [drone];
        }
      }
      assert w.drones[..i + 1][..i] == w.drones[..i];
      i := i + 1;
    }
    assert w.drones[..|w.drones|] == w.drones;
  }

  method AssignWorkersToMinerals(w: World, base: Site, count: int) returns (cmds: seq<Command>)
    ensures cmds == AssignToMineralsOrders(w, base, count)
  {
    cmds := [];
    if count <= 0 || |w.drones| == 0 {
      return;
    }
    var available := CollectFreeDrones(w, base);
    var minerals := MineralsNear(w, base.pos);
    if |minerals| == 0 {
      return;
    }
    cmds := SendToClosest(Take(available, count), minerals);
  }

  /** `structures(EXTRACTOR).ready.closer_than(10, base).first`: the first such extractor in list order, if any. */
  function FirstReadyExtractor(w: World, base: Site): (r: Option<Site>)
    ensures r.None? <==> NoneAdmitted(w.extractors, ReadyWithin(base.pos, ExtractorRadius * ExtractorRadius))
    ensures r.Some? ==> FirstAdmitted(w.extractors, ReadyWithin(base.pos, ExtractorRadius * ExtractorRadius), r.value)
  {
    var ex := SelectSites(w.extractors, ReadyWithin(base.pos, ExtractorRadius * ExtractorRadius));
    SelectSitesFirst(w.extractors, ReadyWithin(base.pos, ExtractorRadius * ExtractorRadius));
    if |ex| > 0 then Some(ex[0]) else None
  }

  /**
   * `[b for b in townhalls if b != base][0]`: the first town hall in list
   * order that is not the base, if any (not the nearest one).
   */
  function OtherBase(w: World, base: Site): (r: Option<Site>)
    ensures r.None? <==> NoneAdmitted(w.townhalls, OtherThan(base.tag))
    ensures r.Some? ==> FirstAdmitted(w.townhalls, OtherThan(base.tag), r.value)
  {
    var others := SelectSites(w.townhalls, OtherThan(base.tag));
    SelectSitesFirst(w.townhalls, OtherThan(base.tag));
    if |others| > 0 then Some(others[0]) else None
  }

  /** The extractor exists and has fewer assigned harvesters than its ideal. */
  predicate HasRoom(ex: Option<Site>) {
    ex.Some? && ex.value.assignedHarvesters < ex.value.idealHarvesters
  }

  /** Whether `_reassign_excess_workers` has somewhere to send a surplus miner of the base. */
  predicate HasDestination(w: World, base: Site) {
    HasRoom(FirstReadyExtractor(w, base))
    || (|w.townhalls| > 1 && OtherBase(w, base).Some? && |MineralsNear(w, OtherBase(w, base).value.pos)| > 0)
  }

  /**
   * The order `_reassign_excess_workers` gives one surplus miner: the first
   * ready extractor within 10 when it has room, otherwise (with more than
   * one town hall) the field nearest the drone among those within 15 of the
   * other base; none when neither exists. Whether there is an order does not
   * depend on the drone.
   */
  function ReassignOrder(w: World, base: Site, d: Drone): (c: Option<Command>)
    ensures c.Some? <==> HasDestination(w, base)
    ensures HasRoom(FirstReadyExtractor(w, base)) ==>
      c == Some(Gather(d.tag, FirstReadyExtractor(w, base).value.tag))
    ensures !HasRoom(FirstReadyExtractor(w, base)) && c.Some? ==>
      c == Some(Gather(d.tag, ClosestTo(MineralsNear(w, OtherBase(w, base).value.pos), d.pos).tag))
  {
    var ex := FirstReadyExtractor(w, base);
    if HasRoom(ex) then
      Some(Gather(d.tag, ex.value.tag))
    else if |w.townhalls| > 1 then
      var other := OtherBase(w, base);
      if other.Some? && |MineralsNear(w, other.value.pos)| > 0 then
        Some(Gather(d.tag, ClosestTo(MineralsNear(w, other.value.pos), d.pos).tag))
      else None
    else None
  }

  /** Every drone of `ds` gets its reassignment order, in order, or none of them does. */
  function ReassignOrders(w: World, base: Site, ds: seq<Drone>): (cmds: seq<Command>)
    ensures |cmds| == (if HasDestination(w, base) then |ds| else 0)
    ensures forall i :: 0 <= i < |cmds| ==> ReassignOrder(w, base, ds[i]) == Some(cmds[i])
  {
    if |ds| == 0 then []
    else
      var prev := ReassignOrders(w, base, ds[..|ds| - 1]);
      var next := ReassignOrder(w, base, ds[|ds| - 1]);
      var r := prev + (if next.Some? then [next.value] else []);
      assert forall i :: 0 <= i < |prev| ==> r[i] == prev[i] && ds[..|ds| - 1][i] == ds[i];
      r
  }

  /**
   * `_reassign_excess_workers(base, excess)`: the first `excess` miners of the
   * base, in drone order, each given its reassignment order; nothing when
   * there is nowhere to send them.
   */
  function ReassignExcessOrders(w: World, base: Site, excess: int): (cmds: seq<Command>)
    ensures excess <= 0 ==> cmds == []
    ensures excess > 0 ==>
      |cmds| == (if HasDestination(w, base) then Min(excess, |MineralWorkers(w, base)|) else 0)
    ensures forall i :: 0 <= i < |cmds| ==> ReassignOrder(w, base, MineralWorkers(w, base)[i]) == Some(cmds[i])
  {
    if excess <= 0 || |w.drones| == 0 then []
    else ReassignOrders(w, base, Take(MineralWorkers(w, base), excess))
  }

  /** When the first ready extractor has room, every surplus miner goes to it: the snapshot does not change between them. */
  lemma {:induction false} ReassignFillsOneExtractor(w: World, base: Site, ds: seq<Drone>)
    requires FirstReadyExtractor(w, base).Some?
    requires FirstReadyExtractor(w, base).value.assignedHarvesters < FirstReadyExtractor(w, base).value.idealHarvesters
    ensures ReassignOrders(w, base, ds) == GatherAll(ds, FirstReadyExtractor(w, base).value.tag)
  {
    if |ds| > 0 {
      ReassignFillsOneExtractor(w, base, ds[..|ds| - 1]);
    }
  }

  /** The body of the per-drone `try` block of `_reassign_excess_workers`. */
  method ReassignOne(w: World, base: Site, drone: Drone) returns (order: Option<Command>)
    ensures order == ReassignOrder(w, base, drone)
  {
    order := None;
    var extractors := SelectSites(w.extractors, ReadyWithin(base.pos, ExtractorRadius * ExtractorRadius));
    if |extractors| > 0 && extractors[0].assignedHarvesters < extractors[0].idealHarvesters {
      order := Some(Gather(drone.tag, extractors[0].tag));
      return;
    }
    if |w.townhalls| > 1 {
      var otherBases := SelectSites(w.townhalls, OtherThan(base.tag));
      if |otherBases| > 0 {
        var otherMinerals := MineralsNear(w, otherBases[0].pos);
        if |otherMinerals| > 0 {
          var mineral := ClosestTo(otherMinerals, drone.pos);
          order := Some(Gather(drone.tag, mineral.tag));
        }
      }
    }
  }

  method ReassignExcessWorkers(w: World, base: Site, excess: int) returns (cmds: seq<Command>)
    ensures cmds == ReassignExcessOrders(w, base, excess)
  {
    cmds := [];
    if excess <= 0 || |w.drones| == 0 {
      return;
    }
    var baseDrones := CollectMiners(w, MineralsNear(w, base.pos));
    var chosen := Take(baseDrones, excess);
    var j := 0;
    while j < |chosen|
      invariant 0 <= j <= |chosen|
      invariant cmds == ReassignOrders(w, base, chosen[..j])
    {
      assert chosen[..j + 1][..j] == chosen[..j];
      var order := ReassignOne(w, base, chosen[j]);
      if order.Some? {
        cmds := cmds + [order.value];
      }
      j := j + 1;
    }
    assert chosen[..|chosen|] == chosen;
  }

  /**
   * The orders for one base: top up to the target with free drones, or,
   * beyond target + 2, shed `current - target` miners (down to the target
   * itself, not to target + 2) when there is somewhere to send them.
   */
  function BaseOrders(w: World, base: Site): (cmds: seq<Command>)
    ensures var target := TargetMinerals(AnalyzeBase(w, base).targetGasWorkers);
      var current := MineralWorkerCount(w, base);
      (target <= current <= target + 2 ==> cmds == [])
      && (current < target && |MineralsNear(w, base.pos)| == 0 ==> cmds == [])
      && (current < target && |MineralsNear(w, base.pos)| > 0 ==>
            |cmds| == Min(target - current, |FreeDrones(w, base)|))
      && (current > target + 2 ==> |cmds| == (if HasDestination(w, base) then current - target else 0))
  {
    var target := TargetMinerals(AnalyzeBase(w, base).targetGasWorkers);
    var current := MineralWorkerCount(w, base);
    if current < target then AssignToMineralsOrders(w, base, target - current)
    else if current > target + 2 then ReassignExcessOrders(w, base, current - target)
    else []
  }

  /**
   * A base with more than target + 2 miners and a ready extractor with room
   * sends exactly `current - target` of its miners, the first in drone order,
   * all to that extractor.
   */
  lemma ExcessGoesToExtractor(w: World, base: Site)
    requires MineralWorkerCount(w, base) > TargetMinerals(AnalyzeBase(w, base).targetGasWorkers) + 2
    requires HasRoom(FirstReadyExtractor(w, base))
    ensures var excess := MineralWorkerCount(w, base) - TargetMinerals(AnalyzeBase(w, base).targetGasWorkers);
      BaseOrders(w, base) == GatherAll(Take(MineralWorkers(w, base), excess), FirstReadyExtractor(w, base).value.tag)
      && |BaseOrders(w, base)| == excess
  {
    var excess := MineralWorkerCount(w, base) - TargetMinerals(AnalyzeBase(w, base).targetGasWorkers);
    ReassignFillsOneExtractor(w, base, Take(MineralWorkers(w, base), excess));
  }

  function DistributionOver(w: World, bases: seq<Site>): seq<Command> {
    if |bases| == 0 then []
    else DistributionOver(w, bases[..|bases| - 1]) + BaseOrders(w, bases[|bases| - 1])
  }

  function DistributionCommands(w: World): seq<Command> {
    DistributionOver(w, w.townhalls)
  }

  lemma DistributionOverStep(w: World, bases: seq<Site>, i: nat)
    requires i < |bases|
    ensures DistributionOver(w, bases[..i + 1]) == DistributionOver(w, bases[..i]) + BaseOrders(w, bases[i])
  {
    assert bases[..i + 1][..i] == bases[..i];
  }

  /** The body of the per-base `try` block of `_optimize_base_worker_distribution`. */
  method OptimizeBase(w: World, base: Site) returns (cmds: seq<Command>)
    ensures cmds == BaseOrders(w, base)
  {
    cmds := [];
    var info := AnalyzeBase(w, base);
    var targetMinerals := TargetMinerals(info.targetGasWorkers);
    var currentMinerals := CountMineralWorkers(w, base);
    var currentGas := CountGasWorkers(w, base);
    if currentMinerals < targetMinerals {
      cmds := AssignWorkersToMinerals(w, base, targetMinerals - currentMinerals);
    } else if currentMinerals > targetMinerals + 2 {
      cmds := ReassignExcessWorkers(w, base, currentMinerals - targetMinerals);
    }
  }

  method OptimizeBaseWorkerDistribution(w: World) returns (cmds: seq<Command>)
    ensures cmds == DistributionCommands(w)
  {
    cmds := [];
    if |w.townhalls| == 0 {
      return;
    }
    var i := 0;
    while i < |w.townhalls|
      invariant 0 <= i <= |w.townhalls|
      invariant cmds == DistributionOver(w, w.townhalls[..i])
    {
      var more := OptimizeBase(w, w.townhalls[i]);
      DistributionOverStep(w, w.townhalls, i);
      cmds := cmds + more;
      i := i + 1;
    }
    assert w.townhalls[..|w.townhalls|] == w.townhalls;
  }

  // ---------------------------------------------------------------------
  // Step 3: cross-base balancing (`_balance_workers_across_bases`)

  /** `(base, total_workers)` for each base, in town-hall order. */
  function BaseTotals(w: World, bases: seq<Site>): (r: seq<(Site, nat)>)
    ensures |r| == |bases|
    ensures forall i :: 0 <= i < |r| ==> r[i] == (bases[i], TotalWorkers(w, bases[i]))
  {
    if |bases| == 0 then []
    else BaseTotals(w, bases[..|bases| - 1]) + [(bases[|bases| - 1], TotalWorkers(w, bases[|bases| - 1]))]
  }

  predicate SortedByTotal(s: seq<(Site, nat)>) {
    forall i, j :: 0 <= i < j < |s| ==> s[i].1 <= s[j].1
  }

  /** The number of leading entries whose total is not greater than `key`. */
  function UpperBound(s: seq<(Site, nat)>, key: nat): (k: nat)
    requires SortedByTotal(s)
    ensures k <= |s|
    ensures forall i :: 0 <= i < k ==> s[i].1 <= key
    ensures forall i :: k <= i < |s| ==> s[i].1 > key
  {
    if |s| == 0 || s[|s| - 1].1 <= key then |s| else UpperBound(s[..|s| - 1], key)
  }

  /** Places `p` after every entry whose total is not greater (keeps `list.sort` stable). */
  function InsertByTotal(s: seq<(Site, nat)>, p: (Site, nat)): (r: seq<(Site, nat)>)
    requires SortedByTotal(s)
    ensures SortedByTotal(r)
    ensures |r| == |s| + 1
  {
    var k := UpperBound(s, p.1);
    s[..k] + [p] + s[k..]
  }

  /** `base_info_list.sort(key=total_workers)`: a stable insertion sort. */
  function SortByTotal(s: seq<(Site, nat)>): (r: seq<(Site, nat)>)
    ensures SortedByTotal(r)
    ensures |r| == |s|
  {
    if |s| == 0 then []
    else InsertByTotal(SortByTotal(s[..|s| - 1]), s[|s| - 1])
  }

  /** Sorting only reorders the entries. */
  lemma {:induction false} SortByTotalPermutes(s: seq<(Site, nat)>)
    ensures multiset(SortByTotal(s)) == multiset(s)
  {
    if |s| > 0 {
      var front := SortByTotal(s[..|s| - 1]);
      SortByTotalPermutes(s[..|s| - 1]);
      var k := UpperBound(front, s[|s| - 1].1);
      assert front == front[..k] + front[k..];
      assert s == s[..|s| - 1] + [s[|s| - 1]];
    }
  }

  /** The entries whose total is exactly `t`, in their order. */
  function WithTotal(s: seq<(Site, nat)>, t: nat): (r: seq<(Site, nat)>)
    ensures forall i :: 0 <= i < |r| ==> r[i].1 == t
  {
    if |s| == 0 then []
    else WithTotal(s[..|s| - 1], t) + (if s[|s| - 1].1 == t then [s[|s| - 1]] else [])
  }

  lemma {:induction false} WithTotalAppend(a: seq<(Site, nat)>, b: seq<(Site, nat)>, t: nat)
    ensures WithTotal(a + b, t) == WithTotal(a, t) + WithTotal(b, t)
  {
    if |b| == 0 {
      assert a + b == a;
    } else {
      var n := |b| - 1;
      WithTotalAppend(a, b[..n], t);
      var ab := a + b;
      assert ab[..|ab| - 1] == a + b[..n];
      assert ab[|ab| - 1] == b[n];
    }
  }

  lemma {:induction false} WithTotalNone(s: seq<(Site, nat)>, t: nat)
    requires forall i :: 0 <= i < |s| ==> s[i].1 != t
    ensures WithTotal(s, t) == []
  {
    if |s| > 0 {
      WithTotalNone(s[..|s| - 1], t);
    }
  }

  /** Inserting `x` puts it after every entry of its own total. */
  lemma InsertStable(front: seq<(Site, nat)>, x: (Site, nat), t: nat)
    requires SortedByTotal(front)
    ensures WithTotal(InsertByTotal(front, x), t) == WithTotal(front, t) + (if x.1 == t then [x] else [])
  {
    var k := UpperBound(front, x.1);
    var lo, hi := front[..k], front[k..];
    assert InsertByTotal(front, x) == (lo + [x]) + hi;
    assert front == lo + hi;
    WithTotalAppend(lo + [x], hi, t);
    WithTotalAppend(lo, [x], t);
    WithTotalAppend(lo, hi, t);
    assert [x][..0] == [];
    if x.1 == t {
      WithTotalNone(hi, t);
    }
  }

  /**
   * The sort is stable, as Python's `list.sort` is: for every total, the
   * entries carrying it come out in the order they went in.
   */
  lemma {:induction false} SortByTotalStable(s: seq<(Site, nat)>, t: nat)
    ensures WithTotal(SortByTotal(s), t) == WithTotal(s, t)
  {
    if |s| > 0 {
      SortByTotalStable(s[..|s| - 1], t);
      InsertStable(SortByTotal(s[..|s| - 1]), s[|s| - 1], t);
    }
  }

  /** The bases whose total exceeds `bound`, in sorted order. */
  function BasesAbove(s: seq<(Site, nat)>, bound: int): (r: seq<(Site, nat)>)
    ensures forall i :: 0 <= i < |r| ==> r[i].1 > bound && r[i] in s
  {
    if |s| == 0 then []
    else BasesAbove(s[..|s| - 1], bound) + (if s[|s| - 1].1 > bound then [s[|s| - 1]] else [])
  }

  /** Every entry whose total is over `bound` is kept. */
  lemma {:induction false} BasesAboveKeeps(s: seq<(Site, nat)>, bound: int, p: (Site, nat))
    requires p in s && p.1 > bound
    ensures p in BasesAbove(s, bound)
  {
    if s[|s| - 1] != p {
      assert p in s[..|s| - 1];
      BasesAboveKeeps(s[..|s| - 1], bound, p);
    }
  }

  /** The filter distributes over concatenation, so it keeps the entries' relative order. */
  lemma {:induction false} BasesAboveAppend(a: seq<(Site, nat)>, b: seq<(Site, nat)>, bound: int)
    ensures BasesAbove(a + b, bound) == BasesAbove(a, bound) + BasesAbove(b, bound)
  {
    if |b| == 0 {
      assert a + b == a;
    } else {
      var n := |b| - 1;
      BasesAboveAppend(a, b[..n], bound);
      var ab := a + b;
      var tail := if b[n].1 > bound then [b[n]] else [];
      assert ab[..|ab| - 1] == a + b[..n];
      assert ab[|ab| - 1] == b[n];
      assert BasesAbove(ab, bound) == BasesAbove(a + b[..n], bound) + tail;
      assert BasesAbove(b, bound) == BasesAbove(b[..n], bound) + tail;
    }
  }

  /** The bases whose total is below `bound`, in sorted order. */
  function BasesBelow(s: seq<(Site, nat)>, bound: int): (r: seq<(Site, nat)>)
    ensures forall i :: 0 <= i < |r| ==> r[i].1 < bound && r[i] in s
  {
    if |s| == 0 then []
    else BasesBelow(s[..|s| - 1], bound) + (if s[|s| - 1].1 < bound then [s[|s| - 1]] else [])
  }

  /** Every entry whose total is under `bound` is kept. */
  lemma {:induction false} BasesBelowKeeps(s: seq<(Site, nat)>, bound: int, p: (Site, nat))
    requires p in s && p.1 < bound
    ensures p in BasesBelow(s, bound)
  {
    if s[|s| - 1] != p {
      assert p in s[..|s| - 1];
      BasesBelowKeeps(s[..|s| - 1], bound, p);
    }
  }

  /** The filter distributes over concatenation, so it keeps the entries' relative order. */
  lemma {:induction false} BasesBelowAppend(a: seq<(Site, nat)>, b: seq<(Site, nat)>, bound: int)
    ensures BasesBelow(a + b, bound) == BasesBelow(a, bound) + BasesBelow(b, bound)
  {
    if |b| == 0 {
      assert a + b == a;
    } else {
      var n := |b| - 1;
      BasesBelowAppend(a, b[..n], bound);
      var ab := a + b;
      var tail := if b[n].1 < bound then [b[n]] else [];
      assert ab[..|ab| - 1] == a + b[..n];
      assert ab[|ab| - 1] == b[n];
      assert BasesBelow(ab, bound) == BasesBelow(a + b[..n], bound) + tail;
      assert BasesBelow(b, bound) == BasesBelow(b[..n], bound) + tail;
    }
  }

  /**
   * `_move_worker_between_bases(from, to, count)`: the first `count` miners of
   * `from`, each sent to its closest field within 15 of `to`.
   */
  function MoveOrders(w: World, from: Site, to: Site, count: nat): (cmds: seq<Command>)
    ensures |MineralsNear(w, to.pos)| == 0 ==> cmds == []
    ensures |MineralsNear(w, to.pos)| > 0 ==> |cmds| == Min(count, |MineralWorkers(w, from)|)
    ensures forall i :: 0 <= i < |cmds| ==>
      var d := MineralWorkers(w, from)[i];
      MinesFrom(d, MineralsNear(w, from.pos)) && cmds[i] == Gather(d.tag, ClosestTo(MineralsNear(w, to.pos), d.pos).tag)
  {
    var toMinerals := MineralsNear(w, to.pos);
    if |w.drones| == 0 || |toMinerals| == 0 then []
    else GatherClosest(Take(MineralWorkers(w, from), count), toMinerals)
  }

  method MoveWorkerBetweenBases(w: World, from: Site, to: Site, count: nat) returns (cmds: seq<Command>)
    ensures cmds == MoveOrders(w, from, to, count)
  {
    cmds := [];
    if |w.drones| == 0 {
      return;
    }
    var workersToMove := CollectMiners(w, MineralsNear(w, from.pos));
    var toMinerals := MineralsNear(w, to.pos);
    if |toMinerals| == 0 {
      return;
    }
    cmds := SendToClosest(Take(workersToMove, count), toMinerals);
  }

  /** The moves from one surplus base, one per deficit base that is at least three workers lighter. */
  function RowMoves(w: World, e: Site, deficit: seq<(Site, nat)>): seq<Command> {
    if |deficit| == 0 then []
    else
      var d := deficit[|deficit| - 1].0;
      RowMoves(w, e, deficit[..|deficit| - 1])
        + (if TotalWorkers(w, e) > TotalWorkers(w, d) + 2 then MoveOrders(w, e, d, 1) else [])
  }

  function PairMoves(w: World, excess: seq<(Site, nat)>, deficit: seq<(Site, nat)>): seq<Command> {
    if |excess| == 0 then []
    else PairMoves(w, excess[..|excess| - 1], deficit) + RowMoves(w, excess[|excess| - 1].0, deficit)
  }

  /** Every base with its total, sorted by total. */
  function SortedTotals(w: World): (infos: seq<(Site, nat)>)
    ensures |infos| == |w.townhalls|
    ensures SortedByTotal(infos)
  {
    SortByTotal(BaseTotals(w, w.townhalls))
  }

  /**
   * The moves planned from the sorted totals: only when the largest and
   * smallest totals differ by more than 4, every base over `avg + 2` sends one
   * miner toward every base under `avg - 2`.
   */
  function BalanceSorted(w: World, infos: seq<(Site, nat)>, avg: int): seq<Command>
    requires |infos| > 0
  {
    var minWorkers: int := infos[0].1;
    var maxWorkers: int := infos[|infos| - 1].1;
    if maxWorkers - minWorkers > 4 then
      PairMoves(w, BasesAbove(infos, avg + 2), BasesBelow(infos, avg - 2))
    else []
  }

  /** Balancing: nothing with fewer than two bases; otherwise `avg = drones // bases` over the sorted totals. */
  function BalanceCommands(w: World): (cmds: seq<Command>)
    ensures |w.townhalls| < 2 ==> cmds == []
  {
    if |w.townhalls| < 2 then []
    else BalanceSorted(w, SortedTotals(w), |w.drones| / |w.townhalls|)
  }

  /** The inner loop of the balancing: one surplus base against every deficit base. */
  method MovesFromBase(w: World, excessBase: Site, deficitBases: seq<(Site, nat)>) returns (row: seq<Command>)
    ensures row == RowMoves(w, excessBase, deficitBases)
  {
    row := [];
    var m := 0;
    while m < |deficitBases|
      invariant 0 <= m <= |deficitBases|
      invariant row == RowMoves(w, excessBase, deficitBases[..m])
    {
      var deficitBase := deficitBases[m].0;
      var excessInfo := AnalyzeBase(w, excessBase);
      var deficitInfo := AnalyzeBase(w, deficitBase);
      if excessInfo.totalWorkers > deficitInfo.totalWorkers + 2 {
        var moved := MoveWorkerBetweenBases(w, excessBase, deficitBase, 1);
        row := row + moved;
      }
      assert deficitBases[..m + 1][..m] == deficitBases[..m];
      m := m + 1;
    }
    assert deficitBases[..|deficitBases|] == deficitBases;
  }

  lemma PairMovesStep(w: World, excess: seq<(Site, nat)>, deficit: seq<(Site, nat)>, k: nat)
    requires k < |excess|
    ensures PairMoves(w, excess[..k + 1], deficit) == PairMoves(w, excess[..k], deficit) + RowMoves(w, excess[k].0, deficit)
  {
    assert excess[..k + 1][..k] == excess[..k];
  }

  /** The redistribution over the sorted totals, given `workers_per_base`. */
  method Redistribute(w: World, baseInfoList: seq<(Site, nat)>, workersPerBase: int) returns (cmds: seq<Command>)
    requires |baseInfoList| > 0
    ensures cmds == BalanceSorted(w, baseInfoList, workersPerBase)
  {
    cmds := [];
    var minWorkers: int := baseInfoList[0].1;
    var maxWorkers: int := baseInfoList[|baseInfoList| - 1].1;
    if maxWorkers - minWorkers > 4 {
      var excessBases := BasesAbove(baseInfoList, workersPerBase + 2);
      var deficitBases := BasesBelow(baseInfoList, workersPerBase - 2);
      var k := 0;
      while k < |excessBases|
        invariant 0 <= k <= |excessBases|
        invariant cmds == PairMoves(w, excessBases[..k], deficitBases)
      {
        var row := MovesFromBase(w, excessBases[k].0, deficitBases);
        PairMovesStep(w, excessBases, deficitBases, k);
        cmds := cmds + row;
        k := k + 1;
      }
      assert excessBases[..|excessBases|] == excessBases;
    }
  }

  /** The moves without the per-pair re-check: one move from `e` toward every deficit base. */
  function UnguardedRow(w: World, e: Site, deficit: seq<(Site, nat)>): seq<Command> {
    if |deficit| == 0 then []
    else UnguardedRow(w, e, deficit[..|deficit| - 1]) + MoveOrders(w, e, deficit[|deficit| - 1].0, 1)
  }

  /** The balancing plan with neither the spread test nor the re-check. */
  function UnguardedPairs(w: World, excess: seq<(Site, nat)>, deficit: seq<(Site, nat)>): seq<Command> {
    if |excess| == 0 then []
    else UnguardedPairs(w, excess[..|excess| - 1], deficit) + UnguardedRow(w, excess[|excess| - 1].0, deficit)
  }

  /** Each entry carries its own base's total. */
  predicate TotalsOf(w: World, s: seq<(Site, nat)>) {
    forall i :: 0 <= i < |s| ==> s[i].1 == TotalWorkers(w, s[i].0)
  }

  /** Splicing an entry that carries its own total into a list of such entries keeps them all correct. */
  lemma SpliceKeepsTotals(w: World, s: seq<(Site, nat)>, k: nat, p: (Site, nat))
    requires k <= |s| && TotalsOf(w, s) && p.1 == TotalWorkers(w, p.0)
    ensures TotalsOf(w, s[..k] + [p] + s[k..])
  {
    var r := s[..k] + [p] + s[k..];
    forall i | 0 <= i < |r|
      ensures r[i].1 == TotalWorkers(w, r[i].0)
    {
      if i < k {
        assert r[i] == s[i];
      } else if i > k {
        assert r[i] == s[i - 1];
      }
    }
  }

  lemma {:induction false} SortKeepsTotals(w: World, s: seq<(Site, nat)>)
    requires TotalsOf(w, s)
    ensures TotalsOf(w, SortByTotal(s))
  {
    if |s| > 0 {
      var front := SortByTotal(s[..|s| - 1]);
      SortKeepsTotals(w, s[..|s| - 1]);
      SpliceKeepsTotals(w, front, UpperBound(front, s[|s| - 1].1), s[|s| - 1]);
    }
  }

  /** With a surplus base and deficit bases as balancing selects them, the re-check always passes. */
  lemma {:induction false} RecheckPasses(w: World, e: Site, deficit: seq<(Site, nat)>, avg: int)
    requires TotalWorkers(w, e) > avg + 2
    requires forall i :: 0 <= i < |deficit| ==> deficit[i].1 < avg - 2 && deficit[i].1 == TotalWorkers(w, deficit[i].0)
    ensures RowMoves(w, e, deficit) == UnguardedRow(w, e, deficit)
  {
    if |deficit| > 0 {
      RecheckPasses(w, e, deficit[..|deficit| - 1], avg);
    }
  }

  lemma {:induction false} PairsRecheckPasses(w: World, excess: seq<(Site, nat)>, deficit: seq<(Site, nat)>, avg: int)
    requires forall i :: 0 <= i < |excess| ==> excess[i].1 > avg + 2 && excess[i].1 == TotalWorkers(w, excess[i].0)
    requires forall i :: 0 <= i < |deficit| ==> deficit[i].1 < avg - 2 && deficit[i].1 == TotalWorkers(w, deficit[i].0)
    ensures PairMoves(w, excess, deficit) == UnguardedPairs(w, excess, deficit)
  {
    if |excess| > 0 {
      PairsRecheckPasses(w, excess[..|excess| - 1], deficit, avg);
      RecheckPasses(w, excess[|excess| - 1].0, deficit, avg);
    }
  }

  lemma {:induction false} NoDeficitNoMoves(w: World, excess: seq<(Site, nat)>)
    ensures UnguardedPairs(w, excess, []) == []
  {
    if |excess| > 0 {
      NoDeficitNoMoves(w, excess[..|excess| - 1]);
    }
  }

  /**
   * Over sorted totals, the spread test `max - min > 4` and the re-check
   * `excess > deficit + 2` never change the plan: a base over `avg + 2` and a
   * base under `avg - 2` already differ by more than 4.
   */
  lemma BalanceGuardsRedundant(w: World, infos: seq<(Site, nat)>, avg: int)
    requires |infos| > 0 && SortedByTotal(infos) && TotalsOf(w, infos)
    ensures BalanceSorted(w, infos, avg) == UnguardedPairs(w, BasesAbove(infos, avg + 2), BasesBelow(infos, avg - 2))
  {
    var excess := BasesAbove(infos, avg + 2);
    var deficit := BasesBelow(infos, avg - 2);
    PairsRecheckPasses(w, excess, deficit, avg);
    if infos[|infos| - 1].1 - infos[0].1 <= 4 {
      if |excess| > 0 && |deficit| > 0 {
        assert false;
      } else if |deficit| == 0 {
        NoDeficitNoMoves(w, excess);
      }
    }
  }

  /** The sorted totals of a world carry each base's own total. */
  lemma SortedTotalsCarryTotals(w: World)
    ensures TotalsOf(w, SortedTotals(w))
  {
    SortKeepsTotals(w, BaseTotals(w, w.townhalls));
  }

  /** Every command of `r` is a gather order for drone `tag`. */
  predicate AllOrder(r: seq<Command>, tag: int) {
    forall i :: 0 <= i < |r| ==> r[i].Gather? && r[i].unit == tag
  }

  lemma AllOrderAppend(a: seq<Command>, b: seq<Command>, tag: int)
    requires AllOrder(a, tag) && AllOrder(b, tag)
    ensures AllOrder(a + b, tag)
  {
    forall i | 0 <= i < |a + b|
      ensures (a + b)[i].Gather? && (a + b)[i].unit == tag
    {
      if i >= |a| {
        assert (a + b)[i] == b[i - |a|];
      }
    }
  }

  /** A single move is at most one order, to the first miner of `from`. */
  lemma OneMoveFirstMiner(w: World, from: Site, to: Site)
    ensures var m := MoveOrders(w, from, to, 1);
      |m| <= 1 && (|m| == 1 ==> |MineralWorkers(w, from)| > 0 && AllOrder(m, MineralWorkers(w, from)[0].tag))
    ensures var m := MoveOrders(w, from, to, 1);
      |MineralWorkers(w, from)| > 0 && |MineralsNear(w, to.pos)| > 0 ==>
        var d := MineralWorkers(w, from)[0];
        m == [Gather(d.tag, ClosestTo(MineralsNear(w, to.pos), d.pos).tag)]
  {
  }

  /** The deficit bases that have fields within 15, in order. */
  function FieldedBases(w: World, deficit: seq<(Site, nat)>): (ts: seq<Site>)
    ensures |ts| <= |deficit|
    ensures forall i :: 0 <= i < |ts| ==> |MineralsNear(w, ts[i].pos)| > 0
  {
    if |deficit| == 0 then []
    else
      var d := deficit[|deficit| - 1].0;
      FieldedBases(w, deficit[..|deficit| - 1]) + (if |MineralsNear(w, d.pos)| > 0 then [d] else [])
  }

  /**
   * Without the re-check, a surplus base that has a miner sends exactly one
   * order toward each deficit base with fields, in order: its first miner, to
   * the field of that base nearest the miner. A base without miners sends none.
   */
  lemma {:induction false} UnguardedRowOnePerBase(w: World, e: Site, deficit: seq<(Site, nat)>)
    ensures |MineralWorkers(w, e)| == 0 ==> UnguardedRow(w, e, deficit) == []
    ensures |MineralWorkers(w, e)| > 0 ==>
      var r := UnguardedRow(w, e, deficit);
      var ts := FieldedBases(w, deficit);
      var d := MineralWorkers(w, e)[0];
      |r| == |ts| && forall i :: 0 <= i < |ts| ==> r[i] == Gather(d.tag, ClosestTo(MineralsNear(w, ts[i].pos), d.pos).tag)
  {
    if |deficit| > 0 {
      var prefix := deficit[..|deficit| - 1];
      UnguardedRowOnePerBase(w, e, prefix);
      var t := deficit[|deficit| - 1].0;
      OneMoveFirstMiner(w, e, t);
      var prev := UnguardedRow(w, e, prefix);
      var more := MoveOrders(w, e, t, 1);
      assert UnguardedRow(w, e, deficit) == prev + more;
      if |MineralWorkers(w, e)| == 0 {
        assert more == [];
      }
    }
  }

  /**
   * In the balancing itself, where the re-check always passes, a surplus base
   * with a miner moves exactly one worker toward each deficit base with fields.
   */
  lemma BalancingRowOnePerBase(w: World, e: Site, deficit: seq<(Site, nat)>, avg: int)
    requires TotalWorkers(w, e) > avg + 2
    requires forall i :: 0 <= i < |deficit| ==> deficit[i].1 < avg - 2 && deficit[i].1 == TotalWorkers(w, deficit[i].0)
    requires |MineralWorkers(w, e)| > 0
    ensures var r := RowMoves(w, e, deficit);
      var ts := FieldedBases(w, deficit);
      var d := MineralWorkers(w, e)[0];
      |r| == |ts| && forall i :: 0 <= i < |ts| ==> r[i] == Gather(d.tag, ClosestTo(MineralsNear(w, ts[i].pos), d.pos).tag)
  {
    RecheckPasses(w, e, deficit, avg);
    UnguardedRowOnePerBase(w, e, deficit);
  }

  /**
   * All the orders one surplus base sends go to the same drone, its first
   * miner: the snapshot does not change between the moves, so every call
   * picks `workers_to_move[0]` again.
   */
  lemma {:induction false} RowMovesSameDrone(w: World, e: Site, deficit: seq<(Site, nat)>)
    ensures var r := RowMoves(w, e, deficit);
      |r| <= |deficit| && (|r| > 0 ==> |MineralWorkers(w, e)| > 0 && AllOrder(r, MineralWorkers(w, e)[0].tag))
  {
    if |deficit| > 0 {
      var prefix := deficit[..|deficit| - 1];
      RowMovesSameDrone(w, e, prefix);
      var d := deficit[|deficit| - 1].0;
      OneMoveFirstMiner(w, e, d);
      var prev := RowMoves(w, e, prefix);
      var more := if TotalWorkers(w, e) > TotalWorkers(w, d) + 2 then MoveOrders(w, e, d, 1) else [];
      assert RowMoves(w, e, deficit) == prev + more;
      if |prev| > 0 && |more| > 0 {
        AllOrderAppend(prev, more, MineralWorkers(w, e)[0].tag);
      } else if |more| == 0 {
        assert prev + more == prev;
      } else {
        assert prev + more == more;
      }
    }
  }

  /** The loop of `_balance_workers_across_bases` that analyses every base in town-hall order. */
  method CollectBaseTotals(w: World) returns (baseInfoList: seq<(Site, nat)>)
    ensures baseInfoList == BaseTotals(w, w.townhalls)
  {
    baseInfoList := [];
    var i := 0;
    while i < |w.townhalls|
      invariant 0 <= i <= |w.townhalls|
      invariant baseInfoList == BaseTotals(w, w.townhalls[..i])
    {
      var info := AnalyzeBase(w, w.townhalls[i]);
      baseInfoList := baseInfoList + [(w.townhalls[i], info.totalWorkers)];
      assert w.townhalls[..i + 1][..i] == w.townhalls[..i];
      i := i + 1;
    }
    assert w.townhalls[..|w.townhalls|] == w.townhalls;
  }

  method BalanceWorkersAcrossBases(w: World) returns (cmds: seq<Command>)
    ensures cmds == BalanceCommands(w)
  {
    cmds := [];
    if |w.townhalls| < 2 {
      return;
    }
    var totalWorkers := |w.drones|;
    var workersPerBase := totalWorkers / |w.townhalls|;
    var baseInfoList := CollectBaseTotals(w);
    baseInfoList := SortByTotal(baseInfoList);
    cmds := Redistribute(w, baseInfoList, workersPerBase);
  }

  // ---------------------------------------------------------------------
  // Step 4: gas saturation (`_assign_gas_workers`)

  /** The mineral fields within 15 of the town hall nearest the extractor (`townhalls.closest_to`). */
  function HomeFields(w: World, e: Site): (ms: seq<Site>)
    requires |w.townhalls| > 0
    ensures forall i :: 0 <= i < |ms| ==> DistSq(ms[i].pos, ClosestTo(w.townhalls, e.pos).pos) < 225.0
  {
    MineralsNear(w, ClosestTo(w.townhalls, e.pos).pos)
  }

  /** The drones `_assign_workers_to_gas` may take: idle, or mining one of the home fields. */
  function GasCandidates(w: World, e: Site): seq<Drone>
    requires |w.townhalls| > 0
  {
    SelectDrones(w.drones, FreeForGas(HomeFields(w, e)))
  }

  /**
   * `_assign_workers_to_gas(extractor, count)`: the first `count` drones that
   * are idle or mining a field within 15 of the town hall nearest the
   * extractor, in drone order, all sent to the extractor.
   */
  function ToGasOrders(w: World, e: Site, count: int): (cmds: seq<Command>)
    ensures count <= 0 || |w.townhalls| == 0 ==> cmds == []
    ensures count > 0 && |w.townhalls| > 0 ==>
      |cmds| == Min(count, |GasCandidates(w, e)|)
      && forall i :: 0 <= i < |cmds| ==>
        var d := GasCandidates(w, e)[i];
        (d.isIdle || MinesFrom(d, HomeFields(w, e))) && cmds[i] == Gather(d.tag, e.tag)
  {
    if count <= 0 || |w.drones| == 0 || |w.townhalls| == 0 then []
    else GatherAll(Take(GasCandidates(w, e), count), e.tag)
  }

  /** The drones whose order is this extractor. */
  function GasWorkersOf(w: World, e: Site): seq<Drone> {
    SelectDrones(w.drones, GasWorkerOf(e.tag))
  }

  /**
   * `_reassign_gas_workers_to_minerals(extractor, count)`: the first `count`
   * drones gathering from the extractor, each sent to its closest field
   * within 15 of the town hall nearest the extractor; nothing when there is
   * no such field.
   */
  function GasToMineralsOrders(w: World, e: Site, count: int): (cmds: seq<Command>)
    ensures count <= 0 || |w.townhalls| == 0 ==> cmds == []
    ensures |w.townhalls| > 0 && |HomeFields(w, e)| == 0 ==> cmds == []
    ensures count > 0 && |w.townhalls| > 0 && |HomeFields(w, e)| > 0 ==>
      |cmds| == Min(count, |GasWorkersOf(w, e)|)
      && forall i :: 0 <= i < |cmds| ==>
        var d := GasWorkersOf(w, e)[i];
        d.isGathering && d.orderTarget == UnitTag(e.tag)
        && cmds[i] == Gather(d.tag, ClosestTo(HomeFields(w, e), d.pos).tag)
  {
    if count <= 0 || |w.drones| == 0 || |w.townhalls| == 0 then []
    else
      var ms := HomeFields(w, e);
      if |ms| == 0 then [] else GatherClosest(Take(GasWorkersOf(w, e), count), ms)
  }

  /** An extractor whose harvesters are within one of its ideal gets no orders. */
  predicate Balanced(e: Site) {
    e.idealHarvesters <= e.assignedHarvesters <= e.idealHarvesters + 1
  }

  /**
   * The orders for one ready extractor: below its ideal, candidate drones
   * in drone order are sent to it; above ideal + 1, its own gatherers are
   * sent to their nearest home field; balanced, nothing.
   */
  function ExtractorOrders(w: World, e: Site): (cmds: seq<Command>)
    ensures Balanced(e) || |w.townhalls| == 0 ==> cmds == []
    ensures e.assignedHarvesters < e.idealHarvesters && |w.townhalls| > 0 ==>
      |cmds| == Min(e.idealHarvesters - e.assignedHarvesters, |GasCandidates(w, e)|)
      && forall i :: 0 <= i < |cmds| ==> cmds[i] == Gather(GasCandidates(w, e)[i].tag, e.tag)
    ensures e.assignedHarvesters > e.idealHarvesters + 1 && |w.townhalls| > 0 && |HomeFields(w, e)| > 0 ==>
      |cmds| == Min(e.assignedHarvesters - e.idealHarvesters, |GasWorkersOf(w, e)|)
      && forall i :: 0 <= i < |cmds| ==>
        cmds[i] == Gather(GasWorkersOf(w, e)[i].tag, ClosestTo(HomeFields(w, e), GasWorkersOf(w, e)[i].pos).tag)
  {
    var current := e.assignedHarvesters;
    var ideal := e.idealHarvesters;
    if current < ideal then ToGasOrders(w, e, ideal - current)
    else if current > ideal + 1 then GasToMineralsOrders(w, e, current - ideal)
    else []
  }

  function GasOver(w: World, es: seq<Site>): seq<Command> {
    if |es| == 0 then []
    else GasOver(w, es[..|es| - 1]) + ExtractorOrders(w, es[|es| - 1])
  }

  /** Every ready extractor of the map, in order. */
  function GasCommands(w: World): seq<Command> {
    GasOver(w, SelectSites(w.extractors, Ready))
  }

  lemma {:induction false} BalancedExtractorsAreQuiet(w: World, es: seq<Site>)
    requires forall i :: 0 <= i < |es| ==> Balanced(es[i])
    ensures GasOver(w, es) == []
  {
    if |es| > 0 {
      BalancedExtractorsAreQuiet(w, es[..|es| - 1]);
    }
  }

  /** When every ready extractor is balanced, the gas stage queues nothing. */
  lemma GasStageQuietWhenBalanced(w: World)
    requires forall e :: e in w.extractors && e.isReady ==> Balanced(e)
    ensures GasCommands(w) == []
  {
    var ready := SelectSites(w.extractors, Ready);
    SelectSitesDrawn(w.extractors, Ready);
    forall i | 0 <= i < |ready|
      ensures Balanced(ready[i])
    {
      assert ready[i] in multiset(ready);
      assert ready[i] in multiset(w.extractors);
    }
    BalancedExtractorsAreQuiet(w, ready);
  }

  /** The scan of `_assign_workers_to_gas`: idle drones, and drones mining one of `nearby`. */
  method CollectGasCandidates(w: World, nearby: seq<Site>) returns (available: seq<Drone>)
    ensures available == SelectDrones(w.drones, FreeForGas(nearby))
  {
    available := [];
    var i := 0;
    while i < |w.drones|
      invariant 0 <= i <= |w.drones|
      invariant available == SelectDrones(w.drones[..i], FreeForGas(nearby))
    {
      var drone := w.drones[i];
      if drone.isIdle {
        available := available + [drone];
      } else if drone.isGathering && Truthy(drone.orderTarget) {
        if |nearby| > 0 {
          var hit := TargetsMineral(drone, nearby);
          if hit {
            available := available + [drone];
          }
        }
      }
      assert w.drones[..i + 1][..i] == w.drones[..i];
      i := i + 1;
    }
    assert w.drones[..|w.drones|] == w.drones;
  }

  method AssignWorkersToGas(w: World, e: Site, count: int) returns (cmds: seq<Command>)
    ensures cmds == ToGasOrders(w, e, count)
  {
    cmds := [];
    if count <= 0 || |w.drones| == 0 || |w.townhalls| == 0 {
      return;
    }
    var nearest := ClosestTo(w.townhalls, e.pos);
    var available := CollectGasCandidates(w, MineralsNear(w, nearest.pos));
    var chosen := Take(available, count);
    var j := 0;
    while j < |chosen|
      invariant 0 <= j <= |chosen|
      invariant cmds == GatherAll(chosen[..j], e.tag)
    {
      cmds := cmds + [Gather(chosen[j].tag, e.tag)];
      assert chosen[..j + 1][..j] == chosen[..j];
      j := j + 1;
    }
    assert chosen[..|chosen|] == chosen;
  }

  /** The scan of `_reassign_gas_workers_to_minerals`: drones gathering from the extractor, in drone order. */
  method CollectGasWorkers(w: World, e: Site) returns (gasWorkers: seq<Drone>)
    ensures gasWorkers == GasWorkersOf(w, e)
  {
    gasWorkers := [];
    var i := 0;
    while i < |w.drones|
      invariant 0 <= i <= |w.drones|
      invariant gasWorkers == SelectDrones(w.drones[..i], GasWorkerOf(e.tag))
    {
      var drone := w.drones[i];
      if drone.isGathering && drone.orderTarget == UnitTag(e.tag) {
        gasWorkers := gasWorkers + [drone];
      }
      assert w.drones[..i + 1][..i] == w.drones[..i];
      i := i + 1;
    }
    assert w.drones[..|w.drones|] == w.drones;
  }

  method ReassignGasWorkersToMinerals(w: World, e: Site, count: int) returns (cmds: seq<Command>)
    ensures cmds == GasToMineralsOrders(w, e, count)
  {
    cmds := [];
    if count <= 0 || |w.drones| == 0 {
      return;
    }
    var gasWorkers := CollectGasWorkers(w, e);
    if |w.townhalls| == 0 {
      return;
    }
    var nearest := ClosestTo(w.townhalls, e.pos);
    var minerals := MineralsNear(w, nearest.pos);
    if |minerals| == 0 {
      return;
    }
    cmds := SendToClosest(Take(gasWorkers, count), minerals);
  }

  /** The body of the loop of `_assign_workers_to_gas` for one ready extractor. */
  method ExtractorOrdersFor(w: World, extractor: Site) returns (more: seq<Command>)
    ensures more == ExtractorOrders(w, extractor)
  {
    var currentWorkers := extractor.assignedHarvesters;
    var idealWorkers := extractor.idealHarvesters;
    more := [];
    if currentWorkers < idealWorkers {
      more := AssignWorkersToGas(w, extractor, idealWorkers - currentWorkers);
    } else if currentWorkers > idealWorkers + 1 {
      more := ReassignGasWorkersToMinerals(w, extractor, currentWorkers - idealWorkers);
    }
  }

  lemma GasOverStep(w: World, es: seq<Site>, i: nat)
    requires i < |es|
    ensures GasOver(w, es[..i + 1]) == GasOver(w, es[..i]) + ExtractorOrders(w, es[i])
  {
    assert es[..i + 1][..i] == es[..i];
  }

  method AssignGasWorkers(w: World) returns (cmds: seq<Command>)
    ensures cmds == GasCommands(w)
  {
    cmds := [];
    var extractors := SelectSites(w.extractors, Ready);
    if |extractors| == 0 {
      return;
    }
    var i := 0;
    while i < |extractors|
      invariant 0 <= i <= |extractors|
      invariant cmds == GasOver(w, extractors[..i])
    {
      var more := ExtractorOrdersFor(w, extractors[i]);
      GasOverStep(w, extractors, i);
      cmds := cmds + more;
      i := i + 1;
    }
    assert extractors[..|extractors|] == extractors;
  }

  // ---------------------------------------------------------------------
  // `get_resource_efficiency`

  /** The metrics dictionary; the worker and base totals appear only when there is a base. */
  datatype Efficiency = Efficiency(efficiency: real, workersPerBase: real, totals: Option<(nat, nat)>)

  /** `get_resource_efficiency`: workers per base, and that figure over sixteen capped at one. */
  function ResourceEfficiency(w: World): (e: Efficiency)
    ensures |w.townhalls| == 0 ==> e == Efficiency(0.0, 0.0, None)
    ensures 0.0 <= e.efficiency <= 1.0
    ensures |w.townhalls| > 0 ==>
      e.totals == Some((|w.drones|, |w.townhalls|))
      && e.workersPerBase * (|w.townhalls| as real) == |w.drones| as real
      && (e.efficiency == 1.0 <==> |w.drones| >= WorkersPerBase * |w.townhalls|)
      && e.efficiency == (if e.workersPerBase >= 16.0 then 1.0 else e.workersPerBase / 16.0)
  {
    var totalWorkers := |w.drones|;
    var totalBases := |w.townhalls|;
    if totalBases == 0 then Efficiency(0.0, 0.0, None)
    else
      var perBase := (totalWorkers as real) / (totalBases as real);
      var ratio := perBase / (WorkersPerBase as real);
      assert ratio * 16.0 == perBase;
      assert 1.0 <= ratio <==> perBase >= 16.0;
      assert ratio * (16.0 * totalBases as real) == totalWorkers as real;
      Efficiency(if 1.0 <= ratio then 1.0 else ratio, perBase, Some((totalWorkers, totalBases)))
  }

  // ---------------------------------------------------------------------
  // The throttled control loop

  /** Everything one optimisation pass queues, stage by stage. */
  function OptimizationCommands(w: World): seq<Command> {
    IdleCommands(w) + DistributionCommands(w) + BalanceCommands(w) + GasCommands(w)
  }

  class ResourceManager {
    var lastOptimizationTime: real
    const optimizationInterval: real
    /** Declared by the source and never read or written after construction. */
    var baseAssignments: map<int, BaseResourceInfo>

    constructor ()
      ensures lastOptimizationTime == 0.0 && optimizationInterval == 2.0 && baseAssignments == map[]
    {
      lastOptimizationTime := 0.0;
      optimizationInterval := 2.0;
      baseAssignments := map[];
    }

    /**
     * `optimize_resource_gathering`: within two seconds of the last pass it
     * queues nothing and keeps the timestamp; otherwise it stamps the time
     * first and runs the four stages in order.
     */
    method OptimizeResourceGathering(w: World) returns (cmds: seq<Command>)
      modifies this`lastOptimizationTime
      ensures var now := w.time.GetOr(0.0);
        if now - old(lastOptimizationTime) < optimizationInterval
        then cmds == [] && lastOptimizationTime == old(lastOptimizationTime)
        else cmds == OptimizationCommands(w) && lastOptimizationTime == now
    {
      var currentTime := w.time.GetOr(0.0);
      if currentTime - lastOptimizationTime < optimizationInterval {
        return [];
      }
      lastOptimizationTime := currentTime;
      var idle := HandleIdleWorkers(w);
      var perBase := OptimizeBaseWorkerDistribution(w);
      var balance := BalanceWorkersAcrossBases(w);
      var gas := AssignGasWorkers(w);
      cmds := idle + perBase + balance + gas;
    }
  }
}
