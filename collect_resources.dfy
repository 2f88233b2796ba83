/**
 * The AI client's resource-collection state. Each tick it applies, in a
 * fixed order, a food guard scaled by level, an inventory refresh, a look
 * refresh, a take on the player's own tile, the next queued move, a new
 * target chosen by rarity, and finally completion or exploration. Its
 * callbacks keep a take-attempt counter, a blacklist of kinds that failed
 * and the movement plan.
 *
 * The agent's state (food, level, inventory, requirements, vision), the
 * pathfinder's answers and the clock are inputs of each call; the planner's
 * shared context dictionary is the `ctx` field.
 */
module CollectResources {
  import opened Wrappers
  import opened Resource
  import opened Strategy

  type Pos = (int, int)

  /** One tile of the last look: its position relative to the player and what lies on it. */
  datatype TileData = TileData(relPos: Pos, resources: map<Resource, int>)

  /**
   * The agent's state as a tick reads it: food count, level, inventory, the
   * requirements of the next incantation in their order, the last vision
   * data, its visible resources by kind, and the needs_look flag.
   */
  datatype View = View(
    food: int,
    level: int,
    inventory: map<Resource, int>,
    requirements: seq<(Resource, int)>,
    vision: seq<TileData>,
    visible: map<Resource, seq<Pos>>,
    needsLook: bool)

  /** ResourceTarget: where the chosen resource lies and its kind. */
  datatype Target = Target(pos: Pos, kind: Resource)

  /** The entries of the planner's context this state reads and writes. */
  datatype Context = Context(needsInventoryCheck: bool, needsVisionUpdate: bool, stuckCounter: int)

  /** The state's fields. */
  datatype Collector = Collector(
    target: Option<Target>,
    plan: seq<CommandType>,
    priority: Option<Resource>,
    attempts: int,
    failed: set<Resource>,
    lastInventoryCheck: real,
    collected: map<Resource, int>,
    sessionStart: real,
    ctx: Context)

  const InventoryCheckInterval: real := 12.0
  const MaxPlan: nat := 10
  const BlacklistAttempts: int := 2

  /** The kinds from rarest to most common. */
  const Rarity: seq<Resource> := [Thystame, Phiras, Mendiane, Sibur, Deraumere, Linemate]

  /** A kind's place in the rarity order; food, which is not in it, comes last. */
  function Rank(r: Resource): (n: nat)
    ensures r in Rarity ==> n < |Rarity| && Rarity[n] == r
  {
    match r
    case Thystame => 0
    case Phiras => 1
    case Mendiane => 2
    case Sibur => 3
    case Deraumere => 4
    case Linemate => 5
    case Food => 6
  }

  /** The food level at or below which the state collects nothing: int(25 x 1.8) from level 7, int(25 x 1.4) from level 4. */
  function Threshold(level: int): (t: int)
    ensures level < 4 ==> t == 25
    ensures 4 <= level < 7 ==> t == 35
    ensures level >= 7 ==> t == 45
  {
    var base := 25;
    if level >= 7 then base * 18 / 10 else if level >= 4 then base * 14 / 10 else base
  }

  /** inventory.get(r, 0). */
  function Held(inv: map<Resource, int>, r: Resource): int
  {
    if r in inv then inv[r] else 0
  }

  /** The kinds whose requirement exceeds what is held, with the shortfall, in the requirements' order. */
  function Missing(reqs: seq<(Resource, int)>, inv: map<Resource, int>): (m: seq<(Resource, int)>)
    ensures |m| <= |reqs|
  {
    if reqs == [] then []
    else
      var init := reqs[..|reqs| - 1];
      var last := reqs[|reqs| - 1];
      var m := Missing(init, inv);
      if Held(inv, last.0) < last.1 then m + [(last.0, last.1 - Held(inv, last.0))] else m
  }

  /** The requirement at index i is unmet, and p is its kind with the shortfall. */
  predicate Short(reqs: seq<(Resource, int)>, inv: map<Resource, int>, i: int, p: (Resource, int))
  {
    0 <= i < |reqs| && reqs[i].0 == p.0 && Held(inv, p.0) < reqs[i].1 && p.1 == reqs[i].1 - Held(inv, p.0)
  }

  /** The kinds of a missing list. */
  function Kinds(m: seq<(Resource, int)>): set<Resource>
  {
    set p | p in m :: p.0
  }

  /** The kinds of order that are in kinds, in order's order (the filter of _get_resource_priority_order). */
  function Prioritized(order: seq<Resource>, kinds: set<Resource>): (r: seq<Resource>)
    ensures forall k :: k in r <==> k in order && k in kinds
  {
    if order == [] then []
    else
      var init := order[..|order| - 1];
      assert order == init + [order[|order| - 1]];
      var rest := Prioritized(init, kinds);
      if order[|order| - 1] in kinds then rest + [order[|order| - 1]] else rest
  }

  function PriorityOrder(m: seq<(Resource, int)>): seq<Resource>
  {
    Prioritized(Rarity, Kinds(m))
  }

  function Abs(a: int): nat
  {
    if a < 0 then -a else a
  }

  /** Manhattan distance from the player. */
  function Dist(p: Pos): nat
  {
    Abs(p.0) + Abs(p.1)
  }

  /** The positions other than the player's own tile. */
  function NonOrigin(ps: seq<Pos>): (r: seq<Pos>)
    ensures forall p :: p in r <==> p in ps && p != (0, 0)
  {
    if ps == [] then []
    else
      var init := ps[..|ps| - 1];
      assert ps == init + [ps[|ps| - 1]];
      var rest := NonOrigin(init);
      if ps[|ps| - 1] == (0, 0) then rest else rest + [ps[|ps| - 1]]
  }

  /** min(ps, key=distance): a closest position, the first of them. */
  function Closest(ps: seq<Pos>): (r: Pos)
    requires ps != []
    ensures r in ps
    ensures forall p :: p in ps ==> Dist(r) <= Dist(p)
  {
    if |ps| == 1 then ps[0]
    else
      var init := ps[..|ps| - 1];
      assert ps == init + [ps[|ps| - 1]];
      var c := Closest(init);
      if Dist(ps[|ps| - 1]) < Dist(c) then ps[|ps| - 1] else c
  }

  /** visible_resources.get(r, []). */
  function VisibleAt(visible: map<Resource, seq<Pos>>, r: Resource): seq<Pos>
  {
    if r in visible then visible[r] else []
  }

  /** A kind the target search passes over: blacklisted, or seen nowhere but on the player's tile. */
  predicate Skipped(r: Resource, failed: set<Resource>, visible: map<Resource, seq<Pos>>)
  {
    r in failed || NonOrigin(VisibleAt(visible, r)) == []
  }

  /** The search loop of _find_priority_resource_target: the first kind of order not skipped, at its closest position. */
  function FindTarget(order: seq<Resource>, failed: set<Resource>, visible: map<Resource, seq<Pos>>): Option<Target>
  {
    if order == [] then None
    else if order[0] in failed then FindTarget(order[1..], failed, visible)
    else
      var valid := NonOrigin(VisibleAt(visible, order[0]));
      if valid != [] then Some(Target(Closest(valid), order[0]))
      else FindTarget(order[1..], failed, visible)
  }

  /** _find_priority_resource_target. */
  function PriorityTarget(m: seq<(Resource, int)>, failed: set<Resource>, visible: map<Resource, seq<Pos>>): Option<Target>
  {
    if m == [] then None else FindTarget(PriorityOrder(m), failed, visible)
  }

  /** The first missing kind, in the missing list's order, lying on a tile with a positive count. */
  function FirstPresent(m: seq<(Resource, int)>, res: map<Resource, int>): (r: Option<Resource>)
    ensures r.Some? ==> r.value in Kinds(m) && r.value in res && res[r.value] > 0
  {
    if m == [] then None
    else if m[0].0 in res && res[m[0].0] > 0 then Some(m[0].0)
    else FirstPresent(m[1..], res)
  }

  /** _get_needed_resource_on_tile: a missing kind lying on a tile of the vision at (0, 0). */
  function NeededOnTile(vision: seq<TileData>, m: seq<(Resource, int)>): Option<Resource>
  {
    if vision == [] then None
    else if vision[0].relPos == (0, 0) && FirstPresent(m, vision[0].resources).Some? then FirstPresent(m, vision[0].resources)
    else NeededOnTile(vision[1..], m)
  }

  /** _plan_resource_collection_path: the pathfinder's commands cut to ten, none without vision data. */
  function Planned(vision: seq<TileData>, path: seq<CommandType>): (r: seq<CommandType>)
    ensures |r| <= MaxPlan && |r| <= |path| && r == path[..|r|]
    ensures vision != [] && |path| <= MaxPlan ==> r == path
  {
    if vision == [] then [] else if |path| <= MaxPlan then path else path[..MaxPlan]
  }

  /** _explore_for_resources: a look without vision data, else the pathfinder's exploration move. */
  function Explored(vision: seq<TileData>, explore: CommandType): Option<Command>
  {
    if vision == [] then Some(Send(Look)) else MoveCommand(explore)
  }

  /**
   * One call of execute from the fields s, at time now, with the agent's
   * state v; path is what the pathfinder answers for a new target and
   * explore its exploration move. ResourceTarget defines no equality, so a
   * target found is always new and replaces the plan.
   */
  function Tick(s: Collector, now: real, v: View, path: seq<CommandType>, explore: CommandType): (r: (Collector, Option<Command>))
    ensures v.food <= Threshold(v.level) ==> r == (s, None)
    ensures r.0.failed == s.failed && r.0.attempts == s.attempts && r.0.collected == s.collected
    ensures r.0.ctx.stuckCounter == s.ctx.stuckCounter
  {
    if v.food <= Threshold(v.level) then (s, None)
    else if s.ctx.needsInventoryCheck || now - s.lastInventoryCheck >= InventoryCheckInterval then
      (s.(lastInventoryCheck := now, ctx := s.ctx.(needsInventoryCheck := false)), Some(Send(Inventory)))
    else if s.ctx.needsVisionUpdate || v.vision == [] || v.needsLook then
      (s.(ctx := s.ctx.(needsVisionUpdate := false)), Some(Send(Look)))
    else Acted(s, v, path, explore)
  }

  /** The part of a tick after both refreshes: take, move, re-target, or finish or explore. */
  function Acted(s: Collector, v: View, path: seq<CommandType>, explore: CommandType): (r: (Collector, Option<Command>))
    ensures r.0.failed == s.failed && r.0.attempts == s.attempts && r.0.collected == s.collected
    ensures r.0.ctx == s.ctx && r.0.lastInventoryCheck == s.lastInventoryCheck
  {
    var missing := Missing(v.requirements, v.inventory);
    var onTile := NeededOnTile(v.vision, missing);
    if onTile.Some? then (s, Some(Command(Take, onTile)))
    else if s.plan != [] then (s.(plan := s.plan[1..]), MoveCommand(s.plan[0]))
    else
      var found := PriorityTarget(missing, s.failed, v.visible);
      var s1 := if found.Some? then s.(target := found, priority := Some(found.value.kind), plan := Planned(v.vision, path)) else s;
      if found.Some? && s1.plan != [] then (s1.(plan := s1.plan[1..]), MoveCommand(s1.plan[0]))
      else if missing == [] then (s1, None)
      else (s1, Explored(v.vision, explore))
  }

  /** on_command_success: the new fields, and the kind whose unit at (0, 0) is taken out of the vision. */
  function Succeeded(s: Collector, kind: CommandType, now: real): (r: (Collector, Option<Resource>))
  {
    if kind == Take then
      match s.priority
      case Some(k) =>
        (s.(collected := s.collected[k := Held(s.collected, k) + 1], target := None, plan := [], attempts := 0,
            priority := None, failed := s.failed - {k}), Some(k))
      case None => (s, None)
    else if kind in {Forward, Left, Right} then (s.(ctx := s.ctx.(needsVisionUpdate := true)), None)
    else if kind == Inventory then (s.(lastInventoryCheck := now), None)
    else (s, None)
  }

  /** on_command_failed. */
  function Failed(s: Collector, kind: CommandType): Collector
  {
    if kind == Take then
      var attempts := s.attempts + 1;
      s.(attempts := attempts,
         failed := if s.priority.Some? && attempts >= BlacklistAttempts then s.failed + {s.priority.value} else s.failed,
         target := None, plan := [], ctx := s.ctx.(needsVisionUpdate := true))
    else if kind in {Forward, Left, Right} then
      var stuck := s.ctx.stuckCounter + 1;
      if stuck >= 2 then s.(ctx := s.ctx.(stuckCounter := stuck), target := None, plan := [])
      else s.(ctx := s.ctx.(stuckCounter := stuck))
    else s
  }

  /** on_event, given the food count, the level and whether anything is missing. */
  function OnEvent(e: Event, food: int, level: int, reqs: seq<(Resource, int)>, inv: map<Resource, int>): (r: Option<NextState>)
    ensures r == Some(Emergency) <==> e == FoodEmergency
    ensures r == Some(CollectFood) <==> e == FoodLow && food <= Threshold(level)
    ensures r == Some(Explore) <==> e == ResourcesCollected && forall i :: 0 <= i < |reqs| ==> Held(inv, reqs[i].0) >= reqs[i].1
  {
    AllCollected(reqs, inv);
    if e == FoodEmergency then Some(Emergency)
    else if e == FoodLow && food <= Threshold(level) then Some(CollectFood)
    else if e == ResourcesCollected && Missing(reqs, inv) == [] then Some(Explore)
    else None
  }

  /** on_enter: target, plan, attempts, blacklist and statistics reset, and a look requested. */
  function Entered(s: Collector, now: real): Collector
  {
    s.(target := None, plan := [], attempts := 0, failed := {}, collected := map[], sessionStart := now,
       ctx := s.ctx.(needsVisionUpdate := true))
  }

  /** on_exit: target, plan and blacklist cleared. */
  function Exited(s: Collector): Collector
  {
    s.(target := None, plan := [], failed := {})
  }

  /** _get_missing_resources. */
  method GetMissingResources(reqs: seq<(Resource, int)>, inv: map<Resource, int>) returns (m: seq<(Resource, int)>)
    ensures m == Missing(reqs, inv)
  {
    m := [];
    var i := 0;
    while i < |reqs|
      invariant i <= |reqs| && m == Missing(reqs[..i], inv)
    {
      assert reqs[..i + 1][..i] == reqs[..i];
      var (resource, needed) := reqs[i];
      var current := Held(inv, resource);
      if current < needed {
        m := m + [(resource, needed - current)];
      }
      i := i + 1;
    }
    assert reqs[..i] == reqs;
  }

  /** _get_needed_resource_on_tile: the tiles in order, and on a tile at (0, 0) the missing kinds in order. */
  method NeededResourceOnTile(vision: seq<TileData>, m: seq<(Resource, int)>) returns (r: Option<Resource>)
    ensures r == NeededOnTile(vision, m)
  {
    var i := 0;
    while i < |vision|
      invariant i <= |vision| && NeededOnTile(vision[i..], m) == NeededOnTile(vision, m)
    {
      var data := vision[i];
      assert vision[i..][1..] == vision[i + 1..];
      if data.relPos == (0, 0) {
        var j := 0;
        while j < |m|
          invariant j <= |m| && FirstPresent(m[j..], data.resources) == FirstPresent(m, data.resources)
        {
          assert m[j..][1..] == m[j + 1..];
          var resource := m[j].0;
          if resource in data.resources && data.resources[resource] > 0 {
            return Some(resource);
          }
          j := j + 1;
        }
      }
      i := i + 1;
    }
    return None;
  }

  /** _find_priority_resource_target: the kinds in rarity order, blacklisted ones passed over. */
  method FindPriorityTarget(m: seq<(Resource, int)>, failed: set<Resource>, visible: map<Resource, seq<Pos>>) returns (t: Option<Target>)
    ensures t == PriorityTarget(m, failed, visible)
  {
    if m == [] {
      return None;
    }
    var order := PriorityOrder(m);
    var i := 0;
    while i < |order|
      invariant i <= |order| && FindTarget(order[i..], failed, visible) == FindTarget(order, failed, visible)
    {
      var resource := order[i];
      assert order[i..][1..] == order[i + 1..];
      if resource !in failed {
        var valid := NonOrigin(VisibleAt(visible, resource));
        if valid != [] {
          return Some(Target(Closest(valid), resource));
        }
      }
      i := i + 1;
    }
    return None;
  }

  class CollectResourcesState {
    var target: Option<Target>
    var plan: seq<CommandType>
    var priority: Option<Resource>
    var attempts: int
    var failed: set<Resource>
    var lastInventoryCheck: real
    var collected: map<Resource, int>
    var sessionStart: real
    var ctx: Context

    function Fields(): Collector
      reads this
    {
      Collector(target, plan, priority, attempts, failed, lastInventoryCheck, collected, sessionStart, ctx)
    }

    /** __init__ at time now, over the planner's context. */
    constructor(now: real, context: Context)
      ensures Fields() == Collector(None, [], None, 0, {}, now, map[], now, context)
    {
      target, plan, priority, attempts, failed := None, [], None, 0, {};
      lastInventoryCheck, collected, sessionStart, ctx := now, map[], now, context;
    }

    /** execute. */
    method Execute(now: real, v: View, path: seq<CommandType>, explore: CommandType) returns (action: Option<Command>)
      modifies this
      ensures (Fields(), action) == Tick(old(Fields()), now, v, path, explore)
    {
      if v.food <= Threshold(v.level) {
        return None;
      }
      if ctx.needsInventoryCheck || now - lastInventoryCheck >= InventoryCheckInterval {
        ctx := ctx.(needsInventoryCheck := false);
        lastInventoryCheck := now;
        return Some(Send(Inventory));
      }
      if ctx.needsVisionUpdate || v.vision == [] || v.needsLook {
        ctx := ctx.(needsVisionUpdate := false);
        return Some(Send(Look));
      }
      action := Act(v, path, explore);
    }

    /** The rest of execute once no refresh is due. */
    method Act(v: View, path: seq<CommandType>, explore: CommandType) returns (action: Option<Command>)
      modifies this
      ensures (Fields(), action) == Acted(old(Fields()), v, path, explore)
    {
      var missing := GetMissingResources(v.requirements, v.inventory);
      var onTile := NeededResourceOnTile(v.vision, missing);
      if onTile.Some? {
        return Some(Command(Take, onTile));
      }
      if plan != [] {
        var next := plan[0];
        plan := plan[1..];
        return MoveCommand(next);
      }
      var found := FindPriorityTarget(missing, failed, v.visible);
      if found.Some? {
        target := found;
        priority := Some(found.value.kind);
        plan := Planned(v.vision, path);
        if plan != [] {
          var next := plan[0];
          plan := plan[1..];
          return MoveCommand(next);
        }
      }
      if missing == [] {
        return None;
      }
      action := Explored(v.vision, explore);
    }

    /** on_command_success; removed is the kind whose unit at (0, 0) leaves the vision. */
    method OnCommandSuccess(kind: CommandType, now: real) returns (removed: Option<Resource>)
      modifies this
      ensures (Fields(), removed) == Succeeded(old(Fields()), kind, now)
    {
      removed := None;
      if kind == Take {
        if priority.Some? {
          var resource := priority.value;
          collected := collected[resource := Held(collected, resource) + 1];
          removed := Some(resource);
          target := None;
          plan := [];
          attempts := 0;
          priority := None;
          failed := failed - {resource};
        }
      } else if kind == Forward || kind == Left || kind == Right {
        ctx := ctx.(needsVisionUpdate := true);
      } else if kind == Inventory {
        lastInventoryCheck := now;
      }
    }

    /** on_command_failed. */
    method OnCommandFailed(kind: CommandType)
      modifies this
      ensures Fields() == Failed(old(Fields()), kind)
    {
      if kind == Take {
        attempts := attempts + 1;
        if priority.Some? && attempts >= BlacklistAttempts {
          failed := failed + {priority.value};
        }
        target := None;
        plan := [];
        ctx := ctx.(needsVisionUpdate := true);
      } else if kind == Forward || kind == Left || kind == Right {
        var stuck := ctx.stuckCounter + 1;
        ctx := ctx.(stuckCounter := stuck);
        if stuck >= 2 {
          target := None;
          plan := [];
        }
      }
    }

    method OnEnter(now: real)
      modifies this
      ensures Fields() == Entered(old(Fields()), now)
    {
      target, plan, attempts, failed, collected, sessionStart := None, [], 0, {}, map[], now;
      ctx := ctx.(needsVisionUpdate := true);
    }

    method OnExit()
      modifies this
      ensures Fields() == Exited(old(Fields()))
    {
      target, plan, failed := None, [], {};
    }
  }

  // ---- properties ----------------------------------------------------------------------

  /** The missing list holds exactly the unmet requirements, each with its shortfall. */
  lemma {:induction false} MissingExact(reqs: seq<(Resource, int)>, inv: map<Resource, int>, p: (Resource, int))
    ensures p in Missing(reqs, inv) <==> exists i :: Short(reqs, inv, i, p)
    decreases |reqs|
  {
    if reqs != [] {
      var n := |reqs| - 1;
      var init := reqs[..n];
      var last := reqs[n];
      MissingExact(init, inv, p);
      if p in Missing(reqs, inv) {
        if p in Missing(init, inv) {
          var i :| Short(init, inv, i, p);
          assert init[i] == reqs[i];
          assert Short(reqs, inv, i, p);
        } else {
          assert Short(reqs, inv, n, p);
        }
      }
      if exists i :: Short(reqs, inv, i, p) {
        var i :| Short(reqs, inv, i, p);
        if i < n {
          assert init[i] == reqs[i];
          assert Short(init, inv, i, p);
        } else {
          assert p == (last.0, last.1 - Held(inv, last.0));
        }
      }
    }
  }

  /** Everything is collected exactly when every requirement is met. */
  lemma AllCollected(reqs: seq<(Resource, int)>, inv: map<Resource, int>)
    ensures Missing(reqs, inv) == [] <==> forall i :: 0 <= i < |reqs| ==> Held(inv, reqs[i].0) >= reqs[i].1
  {
    var m := Missing(reqs, inv);
    if m != [] {
      MissingExact(reqs, inv, m[0]);
      var i :| Short(reqs, inv, i, m[0]);
    }
    forall i | 0 <= i < |reqs| && Held(inv, reqs[i].0) < reqs[i].1
      ensures m != []
    {
      var p := (reqs[i].0, reqs[i].1 - Held(inv, reqs[i].0));
      assert Short(reqs, inv, i, p);
      MissingExact(reqs, inv, p);
    }
  }

  /** A target found is of a kind not skipped, at a closest position other than (0, 0) among those of its kind. */
  lemma {:induction false} FindTargetPosition(order: seq<Resource>, failed: set<Resource>, visible: map<Resource, seq<Pos>>)
    ensures var t := FindTarget(order, failed, visible);
      t.Some? ==> (!Skipped(t.value.kind, failed, visible)
        && t.value.pos in VisibleAt(visible, t.value.kind) && t.value.pos != (0, 0)
        && forall p :: p in VisibleAt(visible, t.value.kind) && p != (0, 0) ==> Dist(t.value.pos) <= Dist(p))
    decreases |order|
  {
    if order != [] && Skipped(order[0], failed, visible) {
      FindTargetPosition(order[1..], failed, visible);
    }
  }

  /** Strictly increasing rank along the sequence. */
  predicate RankSorted(order: seq<Resource>)
  {
    forall i, j :: 0 <= i < j < |order| ==> Rank(order[i]) < Rank(order[j])
  }

  /** Filtering an order sorted by rarity keeps it sorted. */
  lemma {:induction false} PrioritizedSorted(order: seq<Resource>, kinds: set<Resource>)
    requires RankSorted(order)
    ensures RankSorted(Prioritized(order, kinds))
    decreases |order|
  {
    if order != [] {
      var init := order[..|order| - 1];
      var last := order[|order| - 1];
      assert order == init + [last];
      assert RankSorted(init) by {
        assert forall i :: 0 <= i < |init| ==> init[i] == order[i];
      }
      PrioritizedSorted(init, kinds);
      var rest := Prioritized(init, kinds);
      forall x | x in rest
        ensures Rank(x) < Rank(last)
      {
        var k :| 0 <= k < |init| && init[k] == x;
        assert order[k] == x;
      }
      if last in kinds {
        assert Prioritized(order, kinds) == rest + [last];
        RankSortedSnoc(rest, last);
      } else {
        assert Prioritized(order, kinds) == rest;
      }
    }
  }

  /** A kind ranked above every kind of a sorted sequence extends it sorted. */
  lemma RankSortedSnoc(rest: seq<Resource>, last: Resource)
    requires RankSorted(rest) && forall x :: x in rest ==> Rank(x) < Rank(last)
    ensures RankSorted(rest + [last])
  {
    var r := rest + [last];
    forall i, j | 0 <= i < j < |r|
      ensures Rank(r[i]) < Rank(r[j])
    {
      if j == |rest| {
        assert r[i] == rest[i] && rest[i] in rest;
      } else {
        assert r[i] == rest[i] && r[j] == rest[j];
      }
    }
  }

  /** Rarity lists each kind at its rank, so it is sorted by rank. */
  lemma RaritySorted()
    ensures RankSorted(Rarity)
  {
    forall i | 0 <= i < |Rarity|
      ensures Rank(Rarity[i]) == i
    {
    }
  }

  /** Over an order sorted by rank, the search takes the eligible kind of least rank, and none only when none is eligible. */
  lemma {:induction false} FirstEligible(order: seq<Resource>, failed: set<Resource>, visible: map<Resource, seq<Pos>>)
    requires RankSorted(order)
    ensures var t := FindTarget(order, failed, visible);
      && (t.None? <==> forall k :: k in order ==> Skipped(k, failed, visible))
      && (t.Some? ==> (t.value.kind in order && !Skipped(t.value.kind, failed, visible)
          && forall k :: k in order && Rank(k) < Rank(t.value.kind) ==> Skipped(k, failed, visible)))
    decreases |order|
  {
    if order != [] {
      var tail := order[1..];
      assert RankSorted(tail) by {
        assert forall i :: 0 <= i < |tail| ==> tail[i] == order[i + 1];
      }
      assert forall k :: k in order <==> k == order[0] || k in tail;
      if Skipped(order[0], failed, visible) {
        FirstEligible(tail, failed, visible);
      } else {
        forall k | k in order && k != order[0]
          ensures Rank(order[0]) < Rank(k)
        {
          var j :| 0 <= j < |order| && order[j] == k;
        }
      }
    }
  }

  /**
   * A target chosen from the missing list m is of a missing, not
   * blacklisted kind, at a closest position other than (0, 0), and no rarer
   * missing kind was eligible; no target at all means no kind was.
   */
  lemma TargetByRarity(m: seq<(Resource, int)>, failed: set<Resource>, visible: map<Resource, seq<Pos>>)
    ensures var t := PriorityTarget(m, failed, visible);
      && (t.None? <==> forall k :: k in Rarity && k in Kinds(m) ==> Skipped(k, failed, visible))
      && (t.Some? ==> (t.value.kind in Rarity && t.value.kind in Kinds(m) && t.value.kind !in failed
          && t.value.pos in VisibleAt(visible, t.value.kind) && t.value.pos != (0, 0)
          && (forall p :: p in VisibleAt(visible, t.value.kind) && p != (0, 0) ==> Dist(t.value.pos) <= Dist(p))
          && (forall k :: k in Rarity && k in Kinds(m) && Rank(k) < Rank(t.value.kind) ==> Skipped(k, failed, visible))))
  {
    if m != [] {
      var order := PriorityOrder(m);
      RaritySorted();
      PrioritizedSorted(Rarity, Kinds(m));
      FindTargetPosition(order, failed, visible);
      FirstEligible(order, failed, visible);
    }
  }

  /** A kind found on the player's tile is missing and lies on a tile at (0, 0). */
  lemma {:induction false} NeededOnTileFound(vision: seq<TileData>, m: seq<(Resource, int)>)
    requires NeededOnTile(vision, m).Some?
    ensures var r := NeededOnTile(vision, m).value;
      r in Kinds(m) && exists i :: 0 <= i < |vision| && vision[i].relPos == (0, 0) && r in vision[i].resources && vision[i].resources[r] > 0
    decreases |vision|
  {
    if !(vision[0].relPos == (0, 0) && FirstPresent(m, vision[0].resources).Some?) {
      NeededOnTileFound(vision[1..], m);
      var r := NeededOnTile(vision, m).value;
      var i :| 0 <= i < |vision[1..]| && vision[1..][i].relPos == (0, 0) && r in vision[1..][i].resources && vision[1..][i].resources[r] > 0;
      assert vision[1..][i] == vision[i + 1];
    }
  }

  /** A tick takes only a missing kind, and only one that the vision shows on the player's tile. */
  lemma TakeOnlyWhatIsMissing(s: Collector, now: real, v: View, path: seq<CommandType>, explore: CommandType, k: Resource)
    requires Tick(s, now, v, path, explore).1 == Some(Command(Take, Some(k)))
    ensures exists i :: 0 <= i < |v.requirements| && v.requirements[i].0 == k && Held(v.inventory, k) < v.requirements[i].1
    ensures exists i :: 0 <= i < |v.vision| && v.vision[i].relPos == (0, 0) && k in v.vision[i].resources && v.vision[i].resources[k] > 0
    ensures Tick(s, now, v, path, explore).0 == s
  {
    var m := Missing(v.requirements, v.inventory);
    var onTile := NeededOnTile(v.vision, m);
    assert onTile == Some(k);
    NeededOnTileFound(v.vision, m);
    var p :| p in m && p.0 == k;
    MissingExact(v.requirements, v.inventory, p);
    var i :| Short(v.requirements, v.inventory, i, p);
  }

  /** The inventory is asked for exactly when food allows and the flag is set or 12 s have passed. */
  lemma InventoryCadence(s: Collector, now: real, v: View, path: seq<CommandType>, explore: CommandType)
    ensures var r := Tick(s, now, v, path, explore);
      (r.1 == Some(Send(Inventory)) <==> (v.food > Threshold(v.level)
        && (s.ctx.needsInventoryCheck || now - s.lastInventoryCheck >= InventoryCheckInterval)))
      && (r.1 == Some(Send(Inventory)) ==> r.0.lastInventoryCheck == now && !r.0.ctx.needsInventoryCheck)
  {
  }

  /** A plan of at most ten commands stays so through a tick. */
  lemma PlanStaysShort(s: Collector, now: real, v: View, path: seq<CommandType>, explore: CommandType)
    requires |s.plan| <= MaxPlan
    ensures |Tick(s, now, v, path, explore).0.plan| <= MaxPlan
  {
  }

  /**
   * The take on the player's own tile leaves the priority kind unset, so
   * its success credits nothing and leaves the vision as it was.
   */
  lemma OnTileTakeUncredited(s: Collector, now: real, v: View, path: seq<CommandType>, explore: CommandType, k: Resource, later: real)
    requires s.priority.None?
    requires Tick(s, now, v, path, explore).1 == Some(Command(Take, Some(k)))
    ensures Succeeded(Tick(s, now, v, path, explore).0, Take, later) == (s, None)
  {
    TakeOnlyWhatIsMissing(s, now, v, path, explore, k);
  }

  /** A kind is blacklisted only by a failed take of it as the priority kind, at the second attempt or later. */
  lemma BlacklistAfterTwoFailures(s: Collector, kind: CommandType, k: Resource)
    requires k !in s.failed && k in Failed(s, kind).failed
    ensures kind == Take && s.priority == Some(k) && s.attempts + 1 >= BlacklistAttempts
  {
  }

  /** A credited take clears the kind from the blacklist and counts one more of it. */
  lemma TakeSuccessCredits(s: Collector, now: real, k: Resource)
    requires s.priority == Some(k)
    ensures var (r, removed) := Succeeded(s, Take, now);
      removed == Some(k) && k !in r.failed && Held(r.collected, k) == Held(s.collected, k) + 1
      && r.target.None? && r.plan == [] && r.attempts == 0 && r.priority.None?
  {
  }

  /** No callback and no tick lowers the stuck counter; only a failed move raises it. */
  lemma StuckNeverReset(s: Collector, kind: CommandType, now: real)
    ensures Succeeded(s, kind, now).0.ctx.stuckCounter == s.ctx.stuckCounter
    ensures Failed(s, kind).ctx.stuckCounter == if kind in {Forward, Left, Right} then s.ctx.stuckCounter + 1 else s.ctx.stuckCounter
    ensures Entered(s, now).ctx.stuckCounter == s.ctx.stuckCounter && Exited(s).ctx.stuckCounter == s.ctx.stuckCounter
  {
  }

  /** Entering twice is entering once. */
  lemma EnterIdempotent(s: Collector, now: real)
    ensures Entered(Entered(s, now), now) == Entered(s, now)
  {
  }
}
