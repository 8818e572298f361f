/**
 * The villager behaviour controller as values: the store's fields as one record,
 * every store action as a function from the old record to the new one, and the
 * properties of those actions as lemmas. The class in VillagerStore holds the
 * same fields and is proved against these functions.
 */
module VillagerModel {
  import opened Wrappers

  datatype VillagerState =
    | Idle
    | WalkingToMine
    | Mining
    | WalkingToTree
    | Chopping
    | ReturningGold
    | ReturningWood

  datatype MineLocation = Mine21 | Mine22
  datatype TreeLocation = Tree1 | Tree2
  datatype FacingDirection = Left | Right

  /** A queued task: the store's `"gold" | "tree"`. */
  datatype Task = Gold | Tree

  /** A pixel offset from the map centre, at scale 1. */
  datatype Point = Point(x: real, y: real)

  /** Every field of the store, in the order the store declares them. */
  datatype Snapshot = Snapshot(
    state: VillagerState,
    offset: Point,
    targetOffset: Option<Point>,
    currentPath: seq<Point>,
    currentWaypointIndex: nat,
    currentMine: Option<MineLocation>,
    currentTree: Option<TreeLocation>,
    facingDirection: FacingDirection,
    lastMineSelected: Option<MineLocation>,
    lastTreeSelected: Option<TreeLocation>,
    shouldReturnOnArrival: bool,
    returnTimer: real,
    pendingTask: Option<Task>)

  /** What one call of `updatePosition` does: a new store, or the TypeError thrown
      by `MINE_PATHS[currentMine!]` / `TREE_PATHS[currentTree!]` on a null site,
      which aborts the call before anything is stored. */
  datatype StepResult = Done(next: Snapshot) | NullDereference

  // ---------------------------------------------------------------- constants

  /** Pixels per second at scale 1. */
  const MoveSpeed: real := 150.0
  /** A waypoint is reached when it is closer than 5 pixels: 5 * 5. */
  const ArrivalRadiusSquared: real := 25.0
  /** Seconds spent working before a requested early return starts. */
  const QuickReturnSeconds: real := 0.8

  /** `OFFSETS.home`, in front of the house. */
  const Home: Point := Point(0.0, -112.0)

  /** Outbound waypoints of `MINE_PATHS`. */
  function MinePath(m: MineLocation): (p: seq<Point>)
    ensures |p| == 3
  {
    match m
    case Mine21 => [Point(-288.0, 56.0), Point(-310.0, 90.0), Point(-221.0, 152.0)]
    case Mine22 => [Point(224.0, 38.0), Point(288.0, 72.0), Point(285.0, -72.0)]
  }

  /** `facingLeft` of `MINE_PATHS`: the facing used while mining there. */
  function MineFacingLeft(m: MineLocation): bool
  {
    m == Mine22
  }

  /** Outbound waypoints of `TREE_PATHS`. */
  function TreePath(t: TreeLocation): (p: seq<Point>)
    ensures |p| == 2
  {
    match t
    case Tree1 => [Point(-96.0, -104.0), Point(-144.0, -91.0)]
    case Tree2 => [Point(48.0, -140.0), Point(90.0, -190.0)]
  }

  /** `facingLeft` of `TREE_PATHS`: the facing used while chopping there. */
  function TreeFacingLeft(t: TreeLocation): bool
  {
    t == Tree1
  }

  // ---------------------------------------------------------------- helpers

  predicate IsWalking(st: VillagerState)
  {
    st == WalkingToMine || st == WalkingToTree
  }

  predicate IsReturning(st: VillagerState)
  {
    st == ReturningGold || st == ReturningWood
  }

  predicate IsWorking(st: VillagerState)
  {
    st == Mining || st == Chopping
  }

  /** The round-robin over the two mines: the other one than last time. */
  function SelectMine(last: Option<MineLocation>): (m: MineLocation)
    ensures m == Mine22 <==> last == Some(Mine21)
    ensures Some(m) != last
  {
    if last == Some(Mine21) then Mine22 else Mine21
  }

  /** The round-robin over the two trees. */
  function SelectTree(last: Option<TreeLocation>): (t: TreeLocation)
    ensures t == Tree2 <==> last == Some(Tree1)
    ensures Some(t) != last
  {
    if last == Some(Tree1) then Tree2 else Tree1
  }

  /** `[...s].reverse()` */
  function Reverse<T>(s: seq<T>): (r: seq<T>)
    ensures |r| == |s|
    ensures forall k :: 0 <= k < |s| ==> r[k] == s[|s| - 1 - k]
  {
    if s == [] then [] else Reverse(s[1..]) + [s[0]]
  }

  /** The way back from a site: its outbound waypoints reversed, then home. */
  function ReturnPath(outbound: seq<Point>): (r: seq<Point>)
    ensures |r| == |outbound| + 1
    ensures r[|outbound|] == Home
    ensures forall k :: 0 <= k < |outbound| ==> r[k] == outbound[|outbound| - 1 - k]
  {
    Reverse(outbound) + [Home]
  }

  function Dist2(a: Point, b: Point): real
  {
    (b.x - a.x) * (b.x - a.x) + (b.y - a.y) * (b.y - a.y)
  }

  /** `distance < 5`, with `distance = Math.sqrt(dx * dx + dy * dy)`: the squared
      distance is under 25. Each coordinate is then less than 5 apart too
      (VillagerProperties.ArrivedIsWithinRadius), so the two bounds written first
      change nothing; they let most cases be settled without multiplying. */
  predicate Arrived(a: Point, b: Point)
  {
    && -5.0 < b.x - a.x < 5.0
    && -5.0 < b.y - a.y < 5.0
    && Dist2(a, b) < ArrivalRadiusSquared
  }

  /** `ratio = min(MOVE_SPEED * delta / distance, 1)` without the square root:
      `ratio` is 1 when this frame's step covers the remaining distance, and
      otherwise `ratio * distance == MOVE_SPEED * delta`, squared. */
  predicate RatioFits(delta: real, dist2: real, ratio: real)
  {
    && 0.0 <= ratio <= 1.0
    && if (MoveSpeed * delta) * (MoveSpeed * delta) >= dist2 then ratio == 1.0
       else ratio * ratio * dist2 == (MoveSpeed * delta) * (MoveSpeed * delta)
  }

  /** The ratio a caller passes along with `delta` for store `s`. */
  predicate RatioFor(s: Snapshot, delta: real, ratio: real)
  {
    && 0.0 <= ratio <= 1.0
    && (s.currentWaypointIndex < |s.currentPath| ==>
          RatioFits(delta, Dist2(s.offset, s.currentPath[s.currentWaypointIndex]), ratio))
  }

  // ---------------------------------------------------------------- invariant

  /** Which path belongs to which state. */
  predicate PathMatchesState(s: Snapshot)
  {
    match s.state
    case Idle => true
    case WalkingToMine => s.currentMine.Some? && s.currentPath == MinePath(s.currentMine.value)
    case Mining => s.currentMine.Some?
    case WalkingToTree => s.currentTree.Some? && s.currentPath == TreePath(s.currentTree.value)
    case Chopping => s.currentTree.Some?
    case ReturningGold => s.currentMine.Some? && s.currentPath == ReturnPath(MinePath(s.currentMine.value))
    case ReturningWood => s.currentTree.Some? && s.currentPath == ReturnPath(TreePath(s.currentTree.value))
  }

  /** The store's invariant, kept by every action. The target is set exactly while
      a path is being followed, and then it is the waypoint the index names. */
  predicate Valid(s: Snapshot)
    ensures Valid(s) ==> s.currentWaypointIndex <= |s.currentPath|
    ensures Valid(s) ==> (s.targetOffset.Some? <==> s.currentPath != [])
  {
    && s.targetOffset == (if s.currentWaypointIndex < |s.currentPath|
                          then Some(s.currentPath[s.currentWaypointIndex]) else None)
    && (s.currentPath != [] ==> s.currentWaypointIndex < |s.currentPath|)
    && (s.currentPath == [] ==> s.currentWaypointIndex == 0)
    && (s.currentPath != [] <==> (IsWalking(s.state) || IsReturning(s.state)))
    && PathMatchesState(s)
    && s.returnTimer >= 0.0
    && (s.returnTimer > 0.0 ==> IsWorking(s.state) || IsReturning(s.state))
    && (s.shouldReturnOnArrival ==> IsWalking(s.state))
  }

  /** The store as `create` builds it. */
  function Initial(): (s: Snapshot)
    ensures Valid(s)
    ensures s.state == Idle && s.offset == Home && s.currentPath == []
  {
    Snapshot(Idle, Home, None, [], 0, None, None, Right, None, None, false, 0.0, None)
  }

  // ---------------------------------------------------------------- actions

  /** `goToGold` */
  function GoToGold(s: Snapshot): (r: Snapshot)
    ensures s.state != Idle ==> r == s
    ensures s.state == Idle ==>
      && r.state == WalkingToMine
      && r.currentMine == r.lastMineSelected == Some(SelectMine(s.lastMineSelected))
      && r.currentMine != s.lastMineSelected
      && r.currentPath == MinePath(r.currentMine.value)
      && r.currentWaypointIndex == 0
      && r.targetOffset == Some(r.currentPath[0])
    ensures r.currentTree == s.currentTree && r.lastTreeSelected == s.lastTreeSelected
    ensures r.offset == s.offset && r.facingDirection == s.facingDirection && r.pendingTask == s.pendingTask
    ensures r.returnTimer == s.returnTimer && r.shouldReturnOnArrival == s.shouldReturnOnArrival
  {
    if s.state == Idle then
      var m := SelectMine(s.lastMineSelected);
      var path := MinePath(m);
      s.(state := WalkingToMine, currentMine := Some(m), lastMineSelected := Some(m),
         currentPath := path, currentWaypointIndex := 0, targetOffset := Some(path[0]))
    else
      s
  }

  /** `goToTree` */
  function GoToTree(s: Snapshot): (r: Snapshot)
    ensures s.state != Idle ==> r == s
    ensures s.state == Idle ==>
      && r.state == WalkingToTree
      && r.currentTree == r.lastTreeSelected == Some(SelectTree(s.lastTreeSelected))
      && r.currentTree != s.lastTreeSelected
      && r.currentMine == None
      && r.currentPath == TreePath(r.currentTree.value)
      && r.currentWaypointIndex == 0
      && r.targetOffset == Some(r.currentPath[0])
    ensures r.lastMineSelected == s.lastMineSelected
    ensures r.offset == s.offset && r.facingDirection == s.facingDirection && r.pendingTask == s.pendingTask
    ensures r.returnTimer == s.returnTimer && r.shouldReturnOnArrival == s.shouldReturnOnArrival
  {
    if s.state == Idle then
      var t := SelectTree(s.lastTreeSelected);
      var path := TreePath(t);
      s.(state := WalkingToTree, currentMine := None, currentTree := Some(t), lastTreeSelected := Some(t),
         currentPath := path, currentWaypointIndex := 0, targetOffset := Some(path[0]))
    else
      s
  }

  /** `queueTask`: overwrites the queued task and nothing else. */
  function QueueTask(s: Snapshot, task: Task): (r: Snapshot)
    ensures r.pendingTask == Some(task)
    ensures r.(pendingTask := s.pendingTask) == s
  {
    s.(pendingTask := Some(task))
  }

  /** `returnHome` */
  function ReturnHome(s: Snapshot): (r: Snapshot)
    ensures s.state == Mining && s.currentMine.Some? ==>
      r == s.(state := ReturningGold, currentPath := ReturnPath(MinePath(s.currentMine.value)),
              currentWaypointIndex := 0, targetOffset := Some(ReturnPath(MinePath(s.currentMine.value))[0]))
    ensures s.state == Chopping && s.currentTree.Some? ==>
      r == s.(state := ReturningWood, currentPath := ReturnPath(TreePath(s.currentTree.value)),
              currentWaypointIndex := 0, targetOffset := Some(ReturnPath(TreePath(s.currentTree.value))[0]))
    ensures IsWalking(s.state) ==> r == s.(shouldReturnOnArrival := true)
    ensures s.state == Idle || IsReturning(s.state) ==> r == s
    ensures r.returnTimer == s.returnTimer && r.pendingTask == s.pendingTask
  {
    if s.state == Mining && s.currentMine.Some? then
      var path := ReturnPath(MinePath(s.currentMine.value));
      s.(state := ReturningGold, currentPath := path, currentWaypointIndex := 0, targetOffset := Some(path[0]))
    else if s.state == Chopping && s.currentTree.Some? then
      var path := ReturnPath(TreePath(s.currentTree.value));
      s.(state := ReturningWood, currentPath := path, currentWaypointIndex := 0, targetOffset := Some(path[0]))
    else if IsWalking(s.state) then
      s.(shouldReturnOnArrival := true)
    else
      s
  }

  /** The quick-return timer has run out: head home from the site. As in the
      source, any state other than `Mining` is taken to be at a tree. */
  function TimerExpired(s: Snapshot): (r: StepResult)
    ensures r == NullDereference <==> if s.state == Mining then s.currentMine == None else s.currentTree == None
    ensures r.Done? ==>
      var t := r.next;
      && IsReturning(t.state) && (t.state == ReturningGold <==> s.state == Mining)
      && t.currentPath != [] && t.currentWaypointIndex == 0 && t.returnTimer == 0.0
      && t.offset == s.offset && t.facingDirection == s.facingDirection && t.pendingTask == s.pendingTask
  {
    if s.state == Mining then
      match s.currentMine
      case None => NullDereference
      case Some(m) =>
        var path := ReturnPath(MinePath(m));
        Done(s.(returnTimer := 0.0, state := ReturningGold, currentPath := path,
                currentWaypointIndex := 0, targetOffset := Some(path[0])))
    else
      match s.currentTree
      case None => NullDereference
      case Some(t) =>
        var path := ReturnPath(TreePath(t));
        Done(s.(returnTimer := 0.0, state := ReturningWood, currentPath := path,
                currentWaypointIndex := 0, targetOffset := Some(path[0])))
  }

  /** The state reached at the end of a path when no task is queued. */
  function FollowOn(st: VillagerState): (next: VillagerState)
    ensures IsWalking(st) ==> IsWorking(next) && (next == Mining <==> st == WalkingToMine)
    ensures !IsWalking(st) ==> next == Idle
  {
    if st == WalkingToMine then Mining
    else if st == WalkingToTree then Chopping
    else Idle
  }

  /** The last waypoint of the path is reached at `target`. */
  function Arrive(s: Snapshot, target: Point): (r: Snapshot)
    ensures r.offset == target && r.facingDirection == s.facingDirection
    ensures !IsWalking(s.state) && s.pendingTask.Some? ==>
      && IsWalking(r.state) && (r.state == WalkingToMine <==> s.pendingTask == Some(Gold))
      && r.currentPath != [] && r.currentWaypointIndex == 0 && r.pendingTask == None
    ensures IsWalking(s.state) || s.pendingTask == None ==>
      && r.state == FollowOn(s.state) && r.currentPath == [] && r.pendingTask == s.pendingTask
      && (r.returnTimer != s.returnTimer ==>
            r.returnTimer == QuickReturnSeconds && IsWorking(r.state) && s.shouldReturnOnArrival)
  {
    var nextState := FollowOn(s.state);
    if nextState == Idle && s.pendingTask.Some? then
      if s.pendingTask.value == Gold then
        var m := SelectMine(s.lastMineSelected);
        var path := MinePath(m);
        s.(offset := target, currentPath := path, currentWaypointIndex := 0, targetOffset := Some(path[0]),
           state := WalkingToMine, currentMine := Some(m), lastMineSelected := Some(m),
           currentTree := None, pendingTask := None)
      else
        var t := SelectTree(s.lastTreeSelected);
        var path := TreePath(t);
        s.(offset := target, currentPath := path, currentWaypointIndex := 0, targetOffset := Some(path[0]),
           state := WalkingToTree, currentTree := Some(t), lastTreeSelected := Some(t),
           currentMine := None, pendingTask := None)
    else
      var arm := s.shouldReturnOnArrival && (nextState == Mining || nextState == Chopping);
      s.(offset := target, currentPath := [], currentWaypointIndex := 0, targetOffset := None,
         state := nextState,
         shouldReturnOnArrival := if arm then false else s.shouldReturnOnArrival,
         returnTimer := if arm then QuickReturnSeconds else s.returnTimer)
  }

  /** The facing chosen while moving by `dx`. */
  function MoveFacing(s: Snapshot, dx: real): (f: FacingDirection)
    ensures f == Left <==>
      || (s.state == ReturningGold && s.currentMine == Some(Mine22))
      || dx < 0.0
      || (dx == 0.0 && s.facingDirection == Left)
  {
    if s.state == ReturningGold && s.currentMine == Some(Mine22) then Left
    else if dx != 0.0 then (if dx < 0.0 then Left else Right)
    else s.facingDirection
  }

  /** A frame's step of `ratio` of the way from the current offset towards `target`,
      turning to face the way of travel. */
  function MoveToward(s: Snapshot, target: Point, ratio: real): (r: Snapshot)
    ensures r == s.(offset := r.offset, facingDirection := r.facingDirection)
    ensures ratio == 1.0 ==> r.offset == target
    ensures ratio == 0.0 ==> r.offset == s.offset
  {
    var dx := target.x - s.offset.x;
    var dy := target.y - s.offset.y;
    s.(offset := Point(s.offset.x + dx * ratio, s.offset.y + dy * ratio),
       facingDirection := MoveFacing(s, dx))
  }

  /** `updatePosition(delta, scale)`, with `ratio` the caller's value of
      `min(MOVE_SPEED * delta / distance, 1)` (see RatioFor). */
  function Advance(s: Snapshot, delta: real, ratio: real): (r: StepResult)
    ensures r == NullDereference ==> 0.0 < s.returnTimer <= delta
    ensures s.returnTimer <= 0.0 && s.currentWaypointIndex >= |s.currentPath| ==> r == Done(s)
    ensures r.Done? ==> r.next.pendingTask == s.pendingTask || r.next.pendingTask == None
  {
    if s.returnTimer > 0.0 then
      var newTimer := s.returnTimer - delta;
      if newTimer <= 0.0 then TimerExpired(s) else Done(s.(returnTimer := newTimer))
    else if |s.currentPath| == 0 || s.currentWaypointIndex >= |s.currentPath| then
      Done(s)
    else
      var target := s.currentPath[s.currentWaypointIndex];
      if Arrived(s.offset, target) then
        if s.currentWaypointIndex == |s.currentPath| - 1 then
          Done(Arrive(s, target))
        else
          Done(s.(offset := target, currentWaypointIndex := s.currentWaypointIndex + 1,
                  targetOffset := Some(s.currentPath[s.currentWaypointIndex + 1])))
      else
        Done(MoveToward(s, target, ratio))
  }

  /** `getFacingLeft` of the frame driver: the site's own facing while working there,
      otherwise the stored facing. */
  function FacingLeftForDisplay(s: Snapshot): (left: bool)
    ensures s.state == Mining && s.currentMine.Some? ==> (left <==> s.currentMine == Some(Mine22))
    ensures s.state == Chopping && s.currentTree.Some? ==> (left <==> s.currentTree == Some(Tree1))
    ensures !IsWorking(s.state) ==> (left <==> s.facingDirection == Left)
  {
    if s.state == Mining && s.currentMine.Some? then MineFacingLeft(s.currentMine.value)
    else if s.state == Chopping && s.currentTree.Some? then TreeFacingLeft(s.currentTree.value)
    else s.facingDirection == Left
  }
}
