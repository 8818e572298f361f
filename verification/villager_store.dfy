/**
 * The villager store as an object: the fields the store's actions `set`, and one
 * method per action. Each method is proved to leave the object in the state that
 * the matching function of VillagerModel gives, so every property proved there
 * holds of the object.
 */
module VillagerStore {
  import opened Wrappers
  import opened VillagerModel
  import VillagerProperties

  class Villager {
    var state: VillagerState
    var offset: Point
    var targetOffset: Option<Point>
    var currentPath: seq<Point>
    var currentWaypointIndex: nat
    var currentMine: Option<MineLocation>
    var currentTree: Option<TreeLocation>
    var facingDirection: FacingDirection
    var lastMineSelected: Option<MineLocation>
    var lastTreeSelected: Option<TreeLocation>
    var shouldReturnOnArrival: bool
    var returnTimer: real
    var pendingTask: Option<Task>

    /** The fields as one value. */
    function Model(): Snapshot
      reads this
    {
      Snapshot(state, offset, targetOffset, currentPath, currentWaypointIndex, currentMine, currentTree,
               facingDirection, lastMineSelected, lastTreeSelected, shouldReturnOnArrival, returnTimer,
               pendingTask)
    }

    ghost predicate Valid()
      reads this
    {
      VillagerModel.Valid(Model())
    }

    constructor ()
      ensures Model() == Initial() && Valid()
    {
      state := Idle;
      offset := Home;
      targetOffset := None;
      currentPath := [];
      currentWaypointIndex := 0;
      currentMine := None;
      currentTree := None;
      facingDirection := Right;
      lastMineSelected := None;
      lastTreeSelected := None;
      shouldReturnOnArrival := false;
      returnTimer := 0.0;
      pendingTask := None;
    }

    /** Leave for the next mine, when idle. */
    method GoToGold()
      requires Valid()
      modifies this
      ensures Valid()
      ensures Model() == VillagerModel.GoToGold(old(Model()))
    {
      ghost var s := Model();
      VillagerProperties.GoToGoldPreservesValid(s);
      if state == Idle {
        var selectedMine := if lastMineSelected == Some(Mine21) then Mine22 else Mine21;
        var path := MinePath(selectedMine);
        state := WalkingToMine;
        currentMine := Some(selectedMine);
        lastMineSelected := Some(selectedMine);
        currentPath := path;
        currentWaypointIndex := 0;
        targetOffset := Some(path[0]);
        assert Model() == s.(state := WalkingToMine, currentMine := Some(selectedMine),
                             lastMineSelected := Some(selectedMine), currentPath := path,
                             currentWaypointIndex := 0, targetOffset := Some(path[0]));
      }
    }

    /** Leave for the next tree, when idle. */
    method GoToTree()
      requires Valid()
      modifies this
      ensures Valid()
      ensures Model() == VillagerModel.GoToTree(old(Model()))
    {
      ghost var s := Model();
      VillagerProperties.GoToTreePreservesValid(s);
      if state == Idle {
        var selectedTree := if lastTreeSelected == Some(Tree1) then Tree2 else Tree1;
        var path := TreePath(selectedTree);
        state := WalkingToTree;
        currentMine := None;
        currentTree := Some(selectedTree);
        lastTreeSelected := Some(selectedTree);
        currentPath := path;
        currentWaypointIndex := 0;
        targetOffset := Some(path[0]);
        assert Model() == s.(state := WalkingToTree, currentMine := None, currentTree := Some(selectedTree),
                             lastTreeSelected := Some(selectedTree), currentPath := path,
                             currentWaypointIndex := 0, targetOffset := Some(path[0]));
      }
    }

    method QueueTask(task: Task)
      requires Valid()
      modifies this
      ensures Valid()
      ensures Model() == VillagerModel.QueueTask(old(Model()), task)
    {
      VillagerProperties.QueueTaskPreservesValid(Model(), task);
      pendingTask := Some(task);
    }

    /** Head home from a site, or ask to turn back on arrival when still walking. */
    method ReturnHome()
      requires Valid()
      modifies this
      ensures Valid()
      ensures Model() == VillagerModel.ReturnHome(old(Model()))
    {
      ghost var s := Model();
      VillagerProperties.ReturnHomePreservesValid(s);
      if state == Mining && currentMine.Some? {
        var returnPath := Reverse(MinePath(currentMine.value)) + [Home];
        state := ReturningGold;
        currentPath := returnPath;
        currentWaypointIndex := 0;
        targetOffset := Some(returnPath[0]);
        assert Model() == s.(state := ReturningGold, currentPath := returnPath,
                             currentWaypointIndex := 0, targetOffset := Some(returnPath[0]));
      } else if state == Chopping && currentTree.Some? {
        var returnPath := Reverse(TreePath(currentTree.value)) + [Home];
        state := ReturningWood;
        currentPath := returnPath;
        currentWaypointIndex := 0;
        targetOffset := Some(returnPath[0]);
        assert Model() == s.(state := ReturningWood, currentPath := returnPath,
                             currentWaypointIndex := 0, targetOffset := Some(returnPath[0]));
      } else if state == WalkingToMine || state == WalkingToTree {
        shouldReturnOnArrival := true;
      }
    }

    /** The quick-return timer has run out: turn back along the reversed path.
        Any state but `Mining` is taken to be at a tree, as in the store. */
    method ExpireQuickReturn() returns (fault: bool)
      modifies this
      ensures fault <==> TimerExpired(old(Model())) == NullDereference
      ensures fault ==> Model() == old(Model())
      ensures !fault ==> Model() == TimerExpired(old(Model())).next
    {
      var isMine := state == Mining;
      var outboundPath;
      if isMine {
        if currentMine == None {
          return true;
        }
        outboundPath := MinePath(currentMine.value);
      } else {
        if currentTree == None {
          return true;
        }
        outboundPath := TreePath(currentTree.value);
      }
      var returnPath := Reverse(outboundPath) + [Home];
      returnTimer := 0.0;
      state := if isMine then ReturningGold else ReturningWood;
      currentPath := returnPath;
      currentWaypointIndex := 0;
      targetOffset := Some(returnPath[0]);
      fault := false;
    }

    /** The last waypoint, `targetWaypoint`, is reached: set out on a queued task,
        or settle into the state that follows the trip. */
    method FinishPath(targetWaypoint: Point)
      modifies this
      ensures Model() == Arrive(old(Model()), targetWaypoint)
    {
      var nextState := if state == WalkingToMine then Mining
                       else if state == WalkingToTree then Chopping
                       else Idle;
      if nextState == Idle && pendingTask.Some? {
        StartQueuedTask(targetWaypoint);
      } else {
        Settle(targetWaypoint, nextState);
      }
    }

    /** Arrival home with a task queued: set out on it from `targetWaypoint`. */
    method StartQueuedTask(targetWaypoint: Point)
      requires FollowOn(state) == Idle && pendingTask.Some?
      modifies this
      ensures Model() == Arrive(old(Model()), targetWaypoint)
    {
      if pendingTask.value == Gold {
        SetOutForGold(targetWaypoint);
      } else {
        SetOutForTree(targetWaypoint);
      }
    }

    /** Leave from `targetWaypoint` for the next mine, clearing the queued task. */
    method SetOutForGold(targetWaypoint: Point)
      requires FollowOn(state) == Idle && pendingTask == Some(Gold)
      modifies this
      ensures Model() == Arrive(old(Model()), targetWaypoint)
    {
      var selectedMine := if lastMineSelected == Some(Mine21) then Mine22 else Mine21;
      var path := MinePath(selectedMine);
      offset := targetWaypoint;
      currentPath := path;
      currentWaypointIndex := 0;
      targetOffset := Some(path[0]);
      state := WalkingToMine;
      currentMine := Some(selectedMine);
      lastMineSelected := Some(selectedMine);
      currentTree := None;
      pendingTask := None;
    }

    /** Leave from `targetWaypoint` for the next tree, clearing the queued task. */
    method SetOutForTree(targetWaypoint: Point)
      requires FollowOn(state) == Idle && pendingTask == Some(Tree)
      modifies this
      ensures Model() == Arrive(old(Model()), targetWaypoint)
    {
      var selectedTree := if lastTreeSelected == Some(Tree1) then Tree2 else Tree1;
      var path := TreePath(selectedTree);
      offset := targetWaypoint;
      currentPath := path;
      currentWaypointIndex := 0;
      targetOffset := Some(path[0]);
      state := WalkingToTree;
      currentTree := Some(selectedTree);
      lastTreeSelected := Some(selectedTree);
      currentMine := None;
      pendingTask := None;
    }

    /** Any other arrival: stop at `targetWaypoint` in `nextState`, arming the
        quick-return timer at a site when a return was requested on the way. */
    method Settle(targetWaypoint: Point, nextState: VillagerState)
      requires nextState == FollowOn(state) && !(nextState == Idle && pendingTask.Some?)
      modifies this
      ensures Model() == Arrive(old(Model()), targetWaypoint)
    {
      offset := targetWaypoint;
      currentPath := [];
      currentWaypointIndex := 0;
      targetOffset := None;
      if shouldReturnOnArrival && (nextState == Mining || nextState == Chopping) {
        shouldReturnOnArrival := false;
        returnTimer := QuickReturnSeconds;
      }
      state := nextState;
    }

    /** Move `ratio` of the way towards `targetWaypoint`, facing the way of travel. */
    method StepToward(targetWaypoint: Point, ratio: real)
      modifies this
      ensures Model() == MoveToward(old(Model()), targetWaypoint, ratio)
    {
      var dx := targetWaypoint.x - offset.x;
      var dy := targetWaypoint.y - offset.y;
      if state == ReturningGold && currentMine == Some(Mine22) {
        facingDirection := Left;
      } else if dx != 0.0 {
        facingDirection := if dx < 0.0 then Left else Right;
      }
      offset := Point(offset.x + dx * ratio, offset.y + dy * ratio);
    }

    /** One animation frame, `delta` seconds after the last. `ratio` stands for
        `min(MOVE_SPEED * delta / distance, 1)`. `fault` reports the TypeError the
        store throws on expiry of the quick-return timer with no site to return
        from; the store is then left as it was. */
    method UpdatePosition(delta: real, ratio: real) returns (fault: bool)
      requires Valid()
      modifies this
      ensures Valid()
      ensures fault <==> Advance(old(Model()), delta, ratio) == NullDereference
      ensures fault ==> Model() == old(Model())
      ensures !fault ==> Model() == Advance(old(Model()), delta, ratio).next
    {
      ghost var s := Model();
      VillagerProperties.AdvancePreservesValid(s, delta, ratio);
      fault := false;
      if returnTimer > 0.0 {
        var newTimer := returnTimer - delta;
        if newTimer <= 0.0 {
          assert Advance(s, delta, ratio) == TimerExpired(s);
          fault := ExpireQuickReturn();
        } else {
          returnTimer := newTimer;
          assert Advance(s, delta, ratio) == Done(Model());
        }
        return;
      }

      if |currentPath| == 0 || currentWaypointIndex >= |currentPath| {
        assert Advance(s, delta, ratio) == Done(s);
        return;
      }

      var targetWaypoint := currentPath[currentWaypointIndex];
      if Arrived(offset, targetWaypoint) {
        if currentWaypointIndex == |currentPath| - 1 {
          assert Advance(s, delta, ratio) == Done(Arrive(s, targetWaypoint));
          FinishPath(targetWaypoint);
        } else {
          offset := targetWaypoint;
          currentWaypointIndex := currentWaypointIndex + 1;
          targetOffset := Some(currentPath[currentWaypointIndex]);
          assert Advance(s, delta, ratio) == Done(Model());
        }
      } else {
        assert Advance(s, delta, ratio) == Done(MoveToward(s, targetWaypoint, ratio));
        StepToward(targetWaypoint, ratio);
      }
    }
  }
}
