/**
 * What the villager store promises: its invariant is kept by every action and
 * every sequence of actions, sites alternate, a path is followed without
 * overshooting, an early return and a queued task are handled as the store's
 * comments say — and the one state in which `updatePosition` throws.
 */
module VillagerProperties {
  import opened Wrappers
  import opened VillagerModel

  /** One call into the store, as the frame driver and the event bridge make them. */
  datatype Command =
    | GoToGoldCmd
    | GoToTreeCmd
    | QueueTaskCmd(task: Task)
    | ReturnHomeCmd
    | UpdatePositionCmd(delta: real, ratio: real)

  function Apply(s: Snapshot, c: Command): StepResult
  {
    match c
    case GoToGoldCmd => Done(GoToGold(s))
    case GoToTreeCmd => Done(GoToTree(s))
    case QueueTaskCmd(task) => Done(QueueTask(s, task))
    case ReturnHomeCmd => Done(ReturnHome(s))
    case UpdatePositionCmd(delta, ratio) => Advance(s, delta, ratio)
  }

  /** A sequence of calls; a thrown TypeError ends it. */
  function Run(s: Snapshot, cs: seq<Command>): StepResult
    decreases |cs|
  {
    if cs == [] then Done(s)
    else
      match Apply(s, cs[0])
      case NullDereference => NullDereference
      case Done(t) => Run(t, cs[1..])
  }

  // ---------------------------------------------------------------- the invariant

  lemma GoToGoldPreservesValid(s: Snapshot)
    requires Valid(s)
    ensures Valid(GoToGold(s))
  {
  }

  lemma GoToTreePreservesValid(s: Snapshot)
    requires Valid(s)
    ensures Valid(GoToTree(s))
  {
  }

  lemma ReturnHomePreservesValid(s: Snapshot)
    requires Valid(s)
    ensures Valid(ReturnHome(s))
  {
  }

  lemma QueueTaskPreservesValid(s: Snapshot, task: Task)
    requires Valid(s)
    ensures Valid(QueueTask(s, task))
  {
  }

  lemma ArrivePreservesValid(s: Snapshot)
    requires Valid(s) && s.returnTimer == 0.0
    requires |s.currentPath| > 0 && s.currentWaypointIndex == |s.currentPath| - 1
    ensures Valid(Arrive(s, s.currentPath[s.currentWaypointIndex]))
  {
  }

  lemma AdvancePreservesValid(s: Snapshot, delta: real, ratio: real)
    requires Valid(s)
    ensures Advance(s, delta, ratio).Done? ==> Valid(Advance(s, delta, ratio).next)
  {
    if s.returnTimer <= 0.0 && s.currentWaypointIndex < |s.currentPath| {
      var target := s.currentPath[s.currentWaypointIndex];
      if !Arrived(s.offset, target) {
        assert Advance(s, delta, ratio) == Done(MoveToward(s, target, ratio));
      } else if s.currentWaypointIndex == |s.currentPath| - 1 {
        ArrivePreservesValid(s);
      }
    }
  }

  lemma ApplyPreservesValid(s: Snapshot, c: Command)
    requires Valid(s)
    ensures Apply(s, c).Done? ==> Valid(Apply(s, c).next)
  {
    match c
    case UpdatePositionCmd(delta, ratio) => AdvancePreservesValid(s, delta, ratio);
    case GoToGoldCmd => GoToGoldPreservesValid(s);
    case GoToTreeCmd => GoToTreePreservesValid(s);
    case QueueTaskCmd(task) => QueueTaskPreservesValid(s, task);
    case ReturnHomeCmd => ReturnHomePreservesValid(s);
  }

  /** Every sequence of calls from a valid store that does not throw ends in a valid store. */
  lemma {:induction false} RunPreservesValid(s: Snapshot, cs: seq<Command>)
    requires Valid(s)
    ensures Run(s, cs).Done? ==> Valid(Run(s, cs).next)
    decreases |cs|
  {
    if cs != [] {
      ApplyPreservesValid(s, cs[0]);
      if Apply(s, cs[0]).Done? {
        RunPreservesValid(Apply(s, cs[0]).next, cs[1..]);
      }
    }
  }

  /** From the initial store, every reachable store satisfies the invariant:
      the target is the current waypoint, the index is inside a non-empty path,
      and the path is non-empty exactly while walking or returning. */
  lemma ReachableStoresAreValid(cs: seq<Command>)
    ensures Run(Initial(), cs).Done? ==> Valid(Run(Initial(), cs).next)
  {
    RunPreservesValid(Initial(), cs);
  }

  // ---------------------------------------------------------------- the phase order

  /** The state changes one call can make. ReturningGold -> ReturningWood is the
      quick-return timer expiring after `returnHome` already left a mine. */
  predicate Transition(a: VillagerState, b: VillagerState)
  {
    || a == b
    || (a == Idle && IsWalking(b))
    || (a == WalkingToMine && b == Mining)
    || (a == WalkingToTree && b == Chopping)
    || (a == Mining && b == ReturningGold)
    || (a == Chopping && b == ReturningWood)
    || (a == ReturningGold && b == ReturningWood)
    || (IsReturning(a) && (b == Idle || IsWalking(b)))
  }

  lemma {:induction false} ApplyFollowsTransitions(s: Snapshot, c: Command)
    requires Valid(s)
    ensures Apply(s, c).Done? ==> Transition(s.state, Apply(s, c).next.state)
    ensures Apply(s, c).Done? && s.state == WalkingToMine ==> Apply(s, c).next.state in {WalkingToMine, Mining}
    ensures Apply(s, c).Done? && s.state == WalkingToTree ==> Apply(s, c).next.state in {WalkingToTree, Chopping}
  {
    if c.UpdatePositionCmd? && s.returnTimer <= 0.0 && s.currentWaypointIndex == |s.currentPath| - 1 {
      ArrivePreservesValid(s);
    }
  }

  // ---------------------------------------------------------------- site alternation

  /** Does the step from `s` to `t` start a trip to a mine? */
  predicate StartsMineTrip(s: Snapshot, t: Snapshot)
  {
    s.state != WalkingToMine && t.state == WalkingToMine
  }

  predicate StartsTreeTrip(s: Snapshot, t: Snapshot)
  {
    s.state != WalkingToTree && t.state == WalkingToTree
  }

  /** Only the start of a mine trip changes `lastMineSelected`, and it selects the other mine. */
  lemma MineSelectionStep(s: Snapshot, c: Command)
    ensures Apply(s, c).Done? ==>
      var t := Apply(s, c).next;
      if StartsMineTrip(s, t) then
        t.currentMine == t.lastMineSelected == Some(SelectMine(s.lastMineSelected))
      else
        t.lastMineSelected == s.lastMineSelected
  {
  }

  lemma TreeSelectionStep(s: Snapshot, c: Command)
    ensures Apply(s, c).Done? ==>
      var t := Apply(s, c).next;
      if StartsTreeTrip(s, t) then
        t.currentTree == t.lastTreeSelected == Some(SelectTree(s.lastTreeSelected))
      else
        t.lastTreeSelected == s.lastTreeSelected
  {
  }

  /** The mines of the successive mine trips of a run. */
  function MineTrips(s: Snapshot, cs: seq<Command>): seq<Option<MineLocation>>
    decreases |cs|
  {
    if cs == [] then []
    else
      match Apply(s, cs[0])
      case NullDereference => []
      case Done(t) => (if StartsMineTrip(s, t) then [t.currentMine] else []) + MineTrips(t, cs[1..])
  }

  function TreeTrips(s: Snapshot, cs: seq<Command>): seq<Option<TreeLocation>>
    decreases |cs|
  {
    if cs == [] then []
    else
      match Apply(s, cs[0])
      case NullDereference => []
      case Done(t) => (if StartsTreeTrip(s, t) then [t.currentTree] else []) + TreeTrips(t, cs[1..])
  }

  /** Whatever calls come in between (direct dispatches, queued tasks, returns, frames),
      two successive mine trips never go to the same mine, and the first one goes to
      the mine other than the last one selected (mine21 on a fresh store). */
  lemma {:induction false} MineTripsAlternate(s: Snapshot, cs: seq<Command>)
    ensures var p := MineTrips(s, cs);
      && (forall i :: 0 <= i < |p| ==> p[i].Some?)
      && (p != [] ==> p[0] == Some(SelectMine(s.lastMineSelected)))
      && (forall i :: 0 <= i < |p| - 1 ==> p[i] != p[i + 1])
    decreases |cs|
  {
    if cs != [] {
      MineSelectionStep(s, cs[0]);
      if Apply(s, cs[0]).Done? {
        var t := Apply(s, cs[0]).next;
        MineTripsAlternate(t, cs[1..]);
        var rest := MineTrips(t, cs[1..]);
        if StartsMineTrip(s, t) {
          assert MineTrips(s, cs) == [t.currentMine] + rest;
          assert rest != [] ==> rest[0] != t.currentMine;
        } else {
          assert MineTrips(s, cs) == rest;
        }
      }
    }
  }

  lemma {:induction false} TreeTripsAlternate(s: Snapshot, cs: seq<Command>)
    ensures var p := TreeTrips(s, cs);
      && (forall i :: 0 <= i < |p| ==> p[i].Some?)
      && (p != [] ==> p[0] == Some(SelectTree(s.lastTreeSelected)))
      && (forall i :: 0 <= i < |p| - 1 ==> p[i] != p[i + 1])
    decreases |cs|
  {
    if cs != [] {
      TreeSelectionStep(s, cs[0]);
      if Apply(s, cs[0]).Done? {
        var t := Apply(s, cs[0]).next;
        TreeTripsAlternate(t, cs[1..]);
        var rest := TreeTrips(t, cs[1..]);
        if StartsTreeTrip(s, t) {
          assert TreeTrips(s, cs) == [t.currentTree] + rest;
          assert rest != [] ==> rest[0] != t.currentTree;
        } else {
          assert TreeTrips(s, cs) == rest;
        }
      }
    }
  }

  // ---------------------------------------------------------------- the quick-return timer

  /** While the timer runs, a frame never moves the villager: it counts down, or on
      expiry installs the reversed path home from index 0, or throws. */
  lemma TimerHoldsPosition(s: Snapshot, delta: real, ratio: real)
    requires s.returnTimer > 0.0
    ensures s.returnTimer - delta > 0.0 ==> Advance(s, delta, ratio) == Done(s.(returnTimer := s.returnTimer - delta))
    ensures s.returnTimer - delta <= 0.0 && Advance(s, delta, ratio).Done? ==>
      var t := Advance(s, delta, ratio).next;
      && t.offset == s.offset && t.facingDirection == s.facingDirection
      && t.returnTimer == 0.0 && t.currentWaypointIndex == 0
      && (if s.state == Mining
          then t.state == ReturningGold && t.currentPath == ReturnPath(MinePath(s.currentMine.value))
          else t.state == ReturningWood && t.currentPath == ReturnPath(TreePath(s.currentTree.value)))
  {
  }

  /** In a valid store the frame throws exactly when the timer runs out after
      `returnHome` has already turned a miner homewards and no tree was ever visited:
      the expiry code takes every state but `mining` to be at a tree. */
  lemma TimerFaultCharacterised(s: Snapshot, delta: real, ratio: real)
    requires Valid(s)
    ensures Advance(s, delta, ratio) == NullDereference <==>
      && s.returnTimer > 0.0 && s.returnTimer - delta <= 0.0
      && s.state == ReturningGold && s.currentTree == None
  {
  }

  /** The other side of the same test: returning with gold after an earlier tree
      trip, an expiring timer does not throw but turns the trip into a wood
      return, along that tree's path reversed, starting from where the villager is. */
  lemma TimerSwitchesToWoodRoute(s: Snapshot, delta: real, ratio: real)
    requires s.state == ReturningGold && s.currentTree.Some?
    requires 0.0 < s.returnTimer <= delta
    ensures Advance(s, delta, ratio).Done?
    ensures var t := Advance(s, delta, ratio).next;
      && t.state == ReturningWood
      && t.currentPath == ReturnPath(TreePath(s.currentTree.value))
      && t.currentWaypointIndex == 0 && t.offset == s.offset
  {
  }

  /** With the timer out of the way, `returnTimer > 0` only ever holds at a site: the
      quick return is armed on arrival at a mine or tree and nowhere else. */
  lemma TimerArmedOnlyAtSites(s: Snapshot, delta: real, ratio: real)
    requires Valid(s) && s.returnTimer == 0.0
    ensures Advance(s, delta, ratio).Done?
    ensures Advance(s, delta, ratio).next.returnTimer > 0.0 ==>
      var t := Advance(s, delta, ratio).next;
      && t.returnTimer == QuickReturnSeconds
      && IsWorking(t.state) && IsWalking(s.state)
      && s.shouldReturnOnArrival && !t.shouldReturnOnArrival
  {
  }

  // ---------------------------------------------------------------- following a path

  /** The arrival test is the squared-distance test of the store: its bounds on
      each coordinate add nothing. */
  lemma ArrivedIsWithinRadius(a: Point, b: Point)
    ensures Arrived(a, b) <==> Dist2(a, b) < ArrivalRadiusSquared
  {
  }

  /** Within 5 pixels of the current waypoint the villager lands exactly on it. */
  lemma ArrivalSnaps(s: Snapshot, delta: real, ratio: real)
    requires Valid(s) && s.returnTimer == 0.0
    requires s.currentWaypointIndex < |s.currentPath|
    requires Arrived(s.offset, s.currentPath[s.currentWaypointIndex])
    ensures Advance(s, delta, ratio).Done?
    ensures var t := Advance(s, delta, ratio).next;
      && t.offset == s.currentPath[s.currentWaypointIndex]
      && (s.currentWaypointIndex < |s.currentPath| - 1 ==>
            t == s.(offset := t.offset, currentWaypointIndex := s.currentWaypointIndex + 1,
                    targetOffset := Some(s.currentPath[s.currentWaypointIndex + 1])))
      && (s.currentWaypointIndex == |s.currentPath| - 1 && (IsWalking(s.state) || s.pendingTask == None) ==>
            && t.currentPath == [] && t.currentWaypointIndex == 0 && t.targetOffset == None
            && t.state == FollowOn(s.state)
            && t.returnTimer == (if s.shouldReturnOnArrival then QuickReturnSeconds else 0.0)
            && !t.shouldReturnOnArrival)
  {
  }

  /** The end of a path home is home itself: with nothing queued the villager rests
      there, idle. */
  lemma ReturnTripEndsHome(s: Snapshot, delta: real, ratio: real)
    requires Valid(s) && s.returnTimer == 0.0 && IsReturning(s.state) && s.pendingTask == None
    requires s.currentWaypointIndex == |s.currentPath| - 1
    ensures Arrived(s.offset, s.currentPath[s.currentWaypointIndex]) ==>
      && Advance(s, delta, ratio).Done?
      && var t := Advance(s, delta, ratio).next;
         t.state == Idle && t.offset == Home && t.currentPath == [] && t.targetOffset == None
  {
  }

  /** Arriving home with a queued task sets straight out again, to the next site of
      that task's kind, without resting idle, and empties the queue. */
  lemma QueuedTaskDispatchedOnArrival(s: Snapshot, delta: real, ratio: real, task: Task)
    requires Valid(s) && s.returnTimer == 0.0 && IsReturning(s.state) && s.pendingTask == Some(task)
    requires s.currentWaypointIndex == |s.currentPath| - 1
    ensures Arrived(s.offset, s.currentPath[s.currentWaypointIndex]) ==>
      && Advance(s, delta, ratio).Done?
      && var t := Advance(s, delta, ratio).next;
         && t.offset == Home && t.pendingTask == None && t.currentWaypointIndex == 0
         && (task == Gold ==>
               t.state == WalkingToMine && t.currentMine == t.lastMineSelected == Some(SelectMine(s.lastMineSelected))
               && t.currentPath == MinePath(t.currentMine.value))
         && (task == Tree ==>
               t.state == WalkingToTree && t.currentTree == t.lastTreeSelected == Some(SelectTree(s.lastTreeSelected))
               && t.currentPath == TreePath(t.currentTree.value))
  {
  }

  /** A frame keeps the queued task, except on arriving home, where it is used up. */
  lemma QueuedTaskConsumedOnlyAtHome(s: Snapshot, delta: real, ratio: real)
    requires Valid(s)
    ensures Advance(s, delta, ratio).Done? ==>
      var t := Advance(s, delta, ratio).next;
      t.pendingTask == s.pendingTask
      || (s.pendingTask.Some? && t.pendingTask == None && IsReturning(s.state) && IsWalking(t.state) && t.offset == Home)
  {
  }

  /** `returnHome` while walking: the trip is finished, the work animation runs for
      0.8 s, and a frame that uses up the timer turns back along the reversed path. */
  lemma EarlyReturnWhileWalking(s: Snapshot, d1: real, r1: real, d2: real, r2: real)
    requires Valid(s) && IsWalking(s.state)
    requires s.currentWaypointIndex == |s.currentPath| - 1
    requires d2 >= QuickReturnSeconds
    ensures Arrived(s.offset, s.currentPath[s.currentWaypointIndex]) ==>
      && Advance(ReturnHome(s), d1, r1).Done?
      && var u := Advance(ReturnHome(s), d1, r1).next;
         && IsWorking(u.state) && u.returnTimer == QuickReturnSeconds && !u.shouldReturnOnArrival
         && Advance(u, d2, r2).Done?
         && var w := Advance(u, d2, r2).next;
            && w.offset == u.offset && w.currentWaypointIndex == 0 && w.returnTimer == 0.0
            && (s.state == WalkingToMine ==>
                  w.state == ReturningGold && w.currentPath == ReturnPath(MinePath(s.currentMine.value)))
            && (s.state == WalkingToTree ==>
                  w.state == ReturningWood && w.currentPath == ReturnPath(TreePath(s.currentTree.value)))
  {
    ArrivePreservesValid(ReturnHome(s));
  }

  /** The point a fraction `r` of the way from `a` to `b`. */
  function Lerp(a: Point, b: Point, r: real): Point
  {
    Point(a.x + (b.x - a.x) * r, a.y + (b.y - a.y) * r)
  }

  lemma LerpDistances(a: Point, b: Point, r: real)
    ensures Dist2(a, Lerp(a, b, r)) == r * r * Dist2(a, b)
    ensures Dist2(Lerp(a, b, r), b) == (1.0 - r) * (1.0 - r) * Dist2(a, b)
  {
    var dx, dy := b.x - a.x, b.y - a.y;
    var p := Lerp(a, b, r);
    assert p.x - a.x == dx * r && p.y - a.y == dy * r;
    assert (dx * r) * (dx * r) + (dy * r) * (dy * r) == r * r * (dx * dx + dy * dy);
    assert b.x - p.x == dx * (1.0 - r) && b.y - p.y == dy * (1.0 - r);
    assert (dx * (1.0 - r)) * (dx * (1.0 - r)) + (dy * (1.0 - r)) * (dy * (1.0 - r))
        == (1.0 - r) * (1.0 - r) * (dx * dx + dy * dy);
  }

  /** Away from the waypoint, a frame moves along the segment towards it by
      `MOVE_SPEED * delta`, or exactly onto it when that is farther: it never
      overshoots. Only the offset and the facing change. */
  lemma MoveNeverOvershoots(s: Snapshot, delta: real, ratio: real)
    requires s.returnTimer <= 0.0 && s.currentWaypointIndex < |s.currentPath|
    requires !Arrived(s.offset, s.currentPath[s.currentWaypointIndex])
    requires RatioFor(s, delta, ratio)
    ensures Advance(s, delta, ratio).Done?
    ensures var t := Advance(s, delta, ratio).next;
      var target := s.currentPath[s.currentWaypointIndex];
      var d2 := Dist2(s.offset, target);
      var step2 := (MoveSpeed * delta) * (MoveSpeed * delta);
      && t == s.(offset := Lerp(s.offset, target, ratio), facingDirection := t.facingDirection)
      && Dist2(t.offset, target) <= d2
      && Dist2(s.offset, t.offset) == (if step2 >= d2 then d2 else step2)
      && (step2 >= d2 ==> t.offset == target)
  {
    var target := s.currentPath[s.currentWaypointIndex];
    assert Advance(s, delta, ratio) == Done(MoveToward(s, target, ratio));
    StepAlongSegment(s, target, delta, ratio);
  }

  /** One moving step, apart from the frame that takes it. */
  lemma StepAlongSegment(s: Snapshot, target: Point, delta: real, ratio: real)
    requires RatioFits(delta, Dist2(s.offset, target), ratio)
    ensures var t := MoveToward(s, target, ratio);
      var d2 := Dist2(s.offset, target);
      var step2 := (MoveSpeed * delta) * (MoveSpeed * delta);
      && t == s.(offset := Lerp(s.offset, target, ratio), facingDirection := t.facingDirection)
      && Dist2(t.offset, target) <= d2
      && Dist2(s.offset, t.offset) == (if step2 >= d2 then d2 else step2)
      && (step2 >= d2 ==> t.offset == target)
  {
    var t := MoveToward(s, target, ratio);
    var d2 := Dist2(s.offset, target);
    LerpDistances(s.offset, target, ratio);
    assert t.offset == Lerp(s.offset, target, ratio);
    var k := 1.0 - ratio;
    SquaredFactorShrinks(k, d2);
    assert Dist2(t.offset, target) == k * k * d2;
    var step2 := (MoveSpeed * delta) * (MoveSpeed * delta);
    assert Dist2(s.offset, t.offset) == (if step2 >= d2 then d2 else step2);
    assert step2 >= d2 ==> t.offset == target;
  }

  /** A squared factor between 0 and 1 does not enlarge a squared distance. */
  lemma SquaredFactorShrinks(k: real, d2: real)
    requires 0.0 <= k <= 1.0 && 0.0 <= d2
    ensures k * k * d2 <= d2
  {
    assert k * k <= k * 1.0;
    assert k * k * d2 <= 1.0 * d2;
  }

  /** The facing while moving: pinned left on the way back from mine22, otherwise the
      sign of the horizontal step, and unchanged by a purely vertical one. */
  lemma FacingWhileMoving(s: Snapshot, delta: real, ratio: real)
    requires s.returnTimer <= 0.0 && s.currentWaypointIndex < |s.currentPath|
    requires !Arrived(s.offset, s.currentPath[s.currentWaypointIndex])
    ensures Advance(s, delta, ratio).Done?
    ensures var t := Advance(s, delta, ratio).next;
      var dx := s.currentPath[s.currentWaypointIndex].x - s.offset.x;
      && (s.state == ReturningGold && s.currentMine == Some(Mine22) ==> t.facingDirection == Left)
      && (!(s.state == ReturningGold && s.currentMine == Some(Mine22)) ==>
            && (dx < 0.0 ==> t.facingDirection == Left)
            && (dx > 0.0 ==> t.facingDirection == Right)
            && (dx == 0.0 ==> t.facingDirection == s.facingDirection))
  {
  }

  /** What the sprite shows: at a site it faces the way the site is set up (right
      at mine21 and tree2, left at mine22 and tree1), whatever way the last step
      went; anywhere else it faces the way the last step went. */
  lemma DisplayFacing(s: Snapshot)
    requires Valid(s)
    ensures s.state == Mining ==> (FacingLeftForDisplay(s) <==> s.currentMine == Some(Mine22))
    ensures s.state == Chopping ==> (FacingLeftForDisplay(s) <==> s.currentTree == Some(Tree1))
    ensures !IsWorking(s.state) ==> (FacingLeftForDisplay(s) <==> s.facingDirection == Left)
  {
  }

  /** A frame with zero elapsed time is not a no-op: leaving home for mine21 it still
      turns the villager to face left. */
  lemma ZeroDeltaStillTurns()
    ensures var s := GoToGold(Initial());
      && Valid(s) && RatioFor(s, 0.0, 0.0) && s.facingDirection == Right
      && Advance(s, 0.0, 0.0) == Done(s.(facingDirection := Left))
  {
    var s := GoToGold(Initial());
    assert s.currentPath[0] == Point(-288.0, 56.0);
  }

  /** ... and within 5 pixels of a waypoint it still snaps onto it. */
  lemma ZeroDeltaStillSnaps()
    ensures var s := GoToGold(Initial()).(offset := Point(-286.0, 56.0));
      && Valid(s) && RatioFor(s, 0.0, 0.0)
      && Advance(s, 0.0, 0.0) == Done(s.(offset := Point(-288.0, 56.0), currentWaypointIndex := 1,
                                          targetOffset := Some(Point(-310.0, 90.0))))
  {
    var s := GoToGold(Initial()).(offset := Point(-286.0, 56.0));
    assert s.currentPath[0] == Point(-288.0, 56.0);
    assert Dist2(s.offset, s.currentPath[0]) == 4.0;
  }
}
