/**
 * The bridge from the assistant's lifecycle events to the villager store: a
 * `prompt_submit` sends the villager out, alternating gold and wood, or queues the
 * next trip and calls it home when it is already out; a `stop` or `interrupt`
 * calls it home. The resource of the previous dispatch is the bridge's only state.
 */
module ClaudeEvents {
  import opened Wrappers
  import opened VillagerModel
  import VillagerProperties
  import VillagerStore

  /** The other resource. */
  function Other(t: Task): (u: Task)
    ensures u != t
  {
    if t == Tree then Gold else Tree
  }

  /** The remembered resource at start-up, seeded from the hour of the day: on an
      even hour it is `tree`, so that the first dispatch goes for gold. */
  function InitialResource(hour: nat): (last: Task)
    ensures last == Tree <==> hour % 2 == 0
    ensures Other(last) == Gold <==> hour % 2 == 0
  {
    if hour % 2 == 0 then Tree else Gold
  }

  /** The guard of the `stop` / `interrupt` branch. */
  predicate OutOrWorking(st: VillagerState)
  {
    st == Mining || st == Chopping || st == WalkingToMine || st == WalkingToTree
  }

  /** One `claude-event`, with the remembered resource `last` and the store `s`:
      the new remembered resource and the new store. */
  function HandleEvent(last: Task, s: Snapshot, eventType: string): (r: (Task, Snapshot))
    ensures eventType == "prompt_submit" ==> r.0 == Other(last)
    ensures eventType != "prompt_submit" ==> r.0 == last
    ensures eventType !in {"prompt_submit", "stop", "interrupt"} ==> r.1 == s
  {
    if eventType == "prompt_submit" then
      if s.state == Idle then
        if last == Tree then (Gold, GoToGold(s)) else (Tree, GoToTree(s))
      else
        var nextTask := if last == Tree then Gold else Tree;
        (nextTask, ReturnHome(QueueTask(s, nextTask)))
    else if eventType == "stop" || eventType == "interrupt" then
      if OutOrWorking(s.state) then (last, ReturnHome(s)) else (last, s)
    else
      (last, s)
  }

  /** A prompt while idle starts the trip for the resource other than the last one,
      at the site after the last one used for that resource. */
  lemma IdlePromptStartsTrip(last: Task, s: Snapshot)
    requires Valid(s) && s.state == Idle
    ensures var (next, t) := HandleEvent(last, s, "prompt_submit");
      && (next == Gold ==> t.state == WalkingToMine && t.currentMine == Some(SelectMine(s.lastMineSelected)))
      && (next == Tree ==> t.state == WalkingToTree && t.currentTree == Some(SelectTree(s.lastTreeSelected)))
      && t.pendingTask == s.pendingTask
  {
  }

  /** A prompt while the villager is out queues the other resource and calls it home:
      from a site it turns back at once, while walking it turns back on arrival. */
  lemma BusyPromptQueuesAndReturns(last: Task, s: Snapshot)
    requires Valid(s) && s.state != Idle
    ensures var (next, t) := HandleEvent(last, s, "prompt_submit");
      && next == Other(last)
      && t.pendingTask == Some(next)
      && (s.state == Mining ==> t.state == ReturningGold && t.currentPath == ReturnPath(MinePath(s.currentMine.value)))
      && (s.state == Chopping ==> t.state == ReturningWood && t.currentPath == ReturnPath(TreePath(s.currentTree.value)))
      && (IsWalking(s.state) ==> t.state == s.state && t.shouldReturnOnArrival)
      && (IsReturning(s.state) ==> t == s.(pendingTask := Some(next)))
  {
  }

  /** The guard on `stop` / `interrupt` changes nothing: `returnHome` already leaves
      every other state as it is. */
  lemma StopGuardIsRedundant(last: Task, s: Snapshot, eventType: string)
    requires eventType == "stop" || eventType == "interrupt"
    ensures HandleEvent(last, s, eventType) == (last, ReturnHome(s))
  {
  }

  /** Every event keeps the store's invariant. */
  lemma HandleEventPreservesValid(last: Task, s: Snapshot, eventType: string)
    requires Valid(s)
    ensures Valid(HandleEvent(last, s, eventType).1)
  {
    VillagerProperties.GoToGoldPreservesValid(s);
    VillagerProperties.GoToTreePreservesValid(s);
    VillagerProperties.ReturnHomePreservesValid(s);
    VillagerProperties.QueueTaskPreservesValid(s, Other(last));
    VillagerProperties.ReturnHomePreservesValid(QueueTask(s, Other(last)));
  }

  // ------------------------------------------------------------ sessions

  /** What reaches the store in a session: a lifecycle event, or an animation frame
      of `delta` seconds for which the frame driver computed `ratio`. */
  datatype Input = Event(eventType: string) | Frame(delta: real, ratio: real)

  /** The inputs a real session can deliver from `s`: frame times are never
      negative and each ratio is the one the frame driver computes. */
  predicate Feasible(last: Task, s: Snapshot, inputs: seq<Input>)
    decreases |inputs|
  {
    inputs == [] ||
    match inputs[0]
    case Event(e) =>
      var (next, t) := HandleEvent(last, s, e);
      Feasible(next, t, inputs[1..])
    case Frame(delta, ratio) =>
      delta >= 0.0 && RatioFor(s, delta, ratio) &&
      (Advance(s, delta, ratio).Done? ==> Feasible(last, Advance(s, delta, ratio).next, inputs[1..]))
  }

  /** The session's end state, or `None` when a frame throws. */
  function Session(last: Task, s: Snapshot, inputs: seq<Input>): Option<(Task, Snapshot)>
    decreases |inputs|
  {
    if inputs == [] then Some((last, s))
    else match inputs[0]
      case Event(e) =>
        var (next, t) := HandleEvent(last, s, e);
        Session(next, t, inputs[1..])
      case Frame(delta, ratio) =>
        match Advance(s, delta, ratio)
        case NullDereference => None
        case Done(t) => Session(last, t, inputs[1..])
  }

  /** Every store a session reaches without a fault satisfies the invariant. */
  lemma {:induction false} SessionPreservesValid(last: Task, s: Snapshot, inputs: seq<Input>)
    requires Valid(s)
    ensures Session(last, s, inputs).Some? ==> Valid(Session(last, s, inputs).value.1)
    decreases |inputs|
  {
    if inputs != [] {
      match inputs[0]
      case Event(e) =>
        HandleEventPreservesValid(last, s, e);
        var (next, t) := HandleEvent(last, s, e);
        SessionPreservesValid(next, t, inputs[1..]);
      case Frame(delta, ratio) =>
        VillagerProperties.AdvancePreservesValid(s, delta, ratio);
        if Advance(s, delta, ratio).Done? {
          SessionPreservesValid(last, Advance(s, delta, ratio).next, inputs[1..]);
        }
    }
  }

  /** The stores in which the next frame long enough to run out the quick-return
      timer throws: heading home with gold, a timer still armed, and no tree. */
  predicate Stuck(s: Snapshot)
  {
    s.state == ReturningGold && s.returnTimer > 0.0 && s.currentTree == None
  }

  /** Once stuck, always stuck: no event and no frame that does not throw gets the
      villager out, and a frame of at least the remaining timer throws. */
  lemma StuckIsPermanent(last: Task, s: Snapshot, eventType: string, delta: real, ratio: real)
    requires Stuck(s)
    ensures Stuck(HandleEvent(last, s, eventType).1)
    ensures delta >= 0.0 && Advance(s, delta, ratio).Done? ==> Stuck(Advance(s, delta, ratio).next)
    ensures delta >= s.returnTimer ==> Advance(s, delta, ratio) == NullDereference
  {
  }

  /** A session split in two runs its halves one after the other: when the first
      half ends in `(l, t)`, the whole ends where the second half from there ends. */
  lemma {:induction false} SessionAppend(last: Task, s: Snapshot, a: seq<Input>, b: seq<Input>, l: Task, t: Snapshot)
    requires Session(last, s, a) == Some((l, t))
    ensures Session(last, s, a + b) == Session(l, t, b)
    ensures Feasible(last, s, a) && Feasible(l, t, b) ==> Feasible(last, s, a + b)
    decreases |a|
  {
    if a == [] {
      assert a + b == b;
    } else {
      assert (a + b)[0] == a[0];
      assert (a + b)[1..] == a[1..] + b;
      match a[0]
      case Event(e) =>
        var (next, u) := HandleEvent(last, s, e);
        SessionAppend(next, u, a[1..], b, l, t);
      case Frame(delta, ratio) =>
        SessionAppend(last, Advance(s, delta, ratio).next, a[1..], b, l, t);
    }
  }

  /** First part of the hazard: on an even hour a prompt sends the villager to
      mine21 and `stop` asks it to turn back on arrival. */
  lemma PromptThenStop() returns (s2: Snapshot)
    ensures var inputs := [Event("prompt_submit"), Event("stop")];
      && Feasible(InitialResource(0), Initial(), inputs)
      && Session(InitialResource(0), Initial(), inputs) == Some((Gold, s2))
    ensures s2 == GoToGold(Initial()).(shouldReturnOnArrival := true)
    ensures s2.currentMine == Some(Mine21) && s2.currentPath == MinePath(Mine21)
  {
    var s0 := Initial();
    var s1 := GoToGold(s0);
    assert s1.currentMine == Some(Mine21) && s1.currentPath == MinePath(Mine21);
    assert HandleEvent(Tree, s0, "prompt_submit") == (Gold, s1);
    s2 := ReturnHome(s1);
    assert s2 == s1.(shouldReturnOnArrival := true);
    assert HandleEvent(Gold, s1, "stop") == (Gold, s2);
  }

  /** Three long frames take the villager from home to the second waypoint. */
  lemma WalkToSecondWaypoint(s2: Snapshot) returns (s5: Snapshot)
    requires s2 == GoToGold(Initial()).(shouldReturnOnArrival := true)
    requires s2.currentMine == Some(Mine21) && s2.currentPath == MinePath(Mine21)
    ensures var frames := [Frame(10.0, 1.0), Frame(10.0, 1.0), Frame(10.0, 1.0)];
      && Feasible(Gold, s2, frames)
      && Session(Gold, s2, frames) == Some((Gold, s5))
    ensures s5 == s2.(offset := MinePath(Mine21)[1], facingDirection := Left, currentWaypointIndex := 1,
                      targetOffset := Some(MinePath(Mine21)[1]))
  {
    var p := MinePath(Mine21);
    var s3 := s2.(offset := p[0], facingDirection := Left);
    assert Dist2(s2.offset, p[0]) == 288.0 * 288.0 + 168.0 * 168.0;
    assert Advance(s2, 10.0, 1.0) == Done(s3);
    var s4 := s3.(currentWaypointIndex := 1, targetOffset := Some(p[1]));
    assert Advance(s3, 10.0, 1.0) == Done(s4);
    s5 := s4.(offset := p[1]);
    assert Dist2(s4.offset, p[1]) == 22.0 * 22.0 + 34.0 * 34.0;
    assert Advance(s4, 10.0, 1.0) == Done(s5);
  }

  /** Three more frames reach mine21, and arrival arms the quick-return timer. */
  lemma WalkIntoMine(s5: Snapshot) returns (s8: Snapshot)
    requires s5 == GoToGold(Initial()).(shouldReturnOnArrival := true, offset := MinePath(Mine21)[1],
                                         facingDirection := Left, currentWaypointIndex := 1,
                                         targetOffset := Some(MinePath(Mine21)[1]))
    requires s5.currentMine == Some(Mine21) && s5.currentPath == MinePath(Mine21)
    ensures var frames := [Frame(10.0, 1.0), Frame(10.0, 1.0), Frame(10.0, 1.0)];
      && Feasible(Gold, s5, frames)
      && Session(Gold, s5, frames) == Some((Gold, s8))
    ensures s8.state == Mining && s8.returnTimer == QuickReturnSeconds
    ensures s8.currentMine == Some(Mine21) && s8.currentTree == None && s8.offset == MinePath(Mine21)[2]
  {
    var p := MinePath(Mine21);
    var s6 := s5.(currentWaypointIndex := 2, targetOffset := Some(p[2]));
    assert Advance(s5, 10.0, 1.0) == Done(s6);
    var s7 := s6.(offset := p[2], facingDirection := Right);
    assert Dist2(s6.offset, p[2]) == 89.0 * 89.0 + 62.0 * 62.0;
    assert Advance(s6, 10.0, 1.0) == Done(s7);
    s8 := s7.(currentPath := [], currentWaypointIndex := 0, targetOffset := None, state := Mining,
              shouldReturnOnArrival := false, returnTimer := QuickReturnSeconds);
    assert Advance(s7, 10.0, 1.0) == Done(s8);
  }

  /** At mine21 with the timer armed, a prompt calls the villager home with the
      timer still running, and the frame that runs it out throws. */
  lemma PromptAtMineFaults(s8: Snapshot)
    requires s8.state == Mining && s8.returnTimer == QuickReturnSeconds
    requires s8.currentMine == Some(Mine21) && s8.currentTree == None && s8.offset == MinePath(Mine21)[2]
    ensures var inputs := [Event("prompt_submit"), Frame(1.0, 1.0)];
      && Feasible(Gold, s8, inputs)
      && Session(Gold, s8, inputs) == None
  {
    var back := ReturnPath(MinePath(Mine21));
    var s9 := ReturnHome(QueueTask(s8, Tree));
    assert HandleEvent(Gold, s8, "prompt_submit") == (Tree, s9);
    assert s9.currentPath == back && s9.currentWaypointIndex == 0;
    assert back[0] == MinePath(Mine21)[2];
    assert Stuck(s9);
    StuckIsPermanent(Tree, s9, "", 1.0, 1.0);
  }

  /** The quick-return hazard can be reached in a real session: on an even hour,
      a prompt sends the villager to mine21 and `stop` asks it to turn back on
      arrival (`start`); six long frames (`walk` twice) bring it there and arm the
      0.8 s timer; a second prompt calls it home while the timer runs, and the
      frame that runs the timer out throws (`tail`). */
  lemma TimerHazardReachable(start: seq<Input>, walk: seq<Input>, tail: seq<Input>)
    requires start == [Event("prompt_submit"), Event("stop")]
    requires walk == [Frame(10.0, 1.0), Frame(10.0, 1.0), Frame(10.0, 1.0)]
    requires tail == [Event("prompt_submit"), Frame(1.0, 1.0)]
    ensures Feasible(InitialResource(0), Initial(), start + (walk + (walk + tail)))
    ensures Session(InitialResource(0), Initial(), start + (walk + (walk + tail))) == None
  {
    var s2 := PromptThenStop();
    var s5 := WalkToSecondWaypoint(s2);
    var s8 := WalkIntoMine(s5);
    PromptAtMineFaults(s8);
    SessionAppend(Gold, s5, walk, tail, Gold, s8);
    SessionAppend(Gold, s2, walk, walk + tail, Gold, s5);
    SessionAppend(InitialResource(0), Initial(), start, walk + (walk + tail), Gold, s2);
  }

  /** The bridge as the hook keeps it: a reference to the remembered resource and
      the store it drives. */
  class EventBridge {
    var lastResource: Task
    const villager: VillagerStore.Villager

    constructor (villager: VillagerStore.Villager, hour: nat)
      ensures this.villager == villager
      ensures lastResource == InitialResource(hour)
    {
      this.villager := villager;
      lastResource := if hour % 2 == 0 then Tree else Gold;
    }

    /** The `claude-event` listener. */
    method OnClaudeEvent(eventType: string)
      requires villager.Valid()
      modifies this, villager
      ensures villager.Valid()
      ensures (lastResource, villager.Model()) == HandleEvent(old(lastResource), old(villager.Model()), eventType)
    {
      var st := villager.state;
      if eventType == "prompt_submit" {
        if st == Idle {
          if lastResource == Tree {
            villager.GoToGold();
            lastResource := Gold;
          } else {
            villager.GoToTree();
            lastResource := Tree;
          }
        } else {
          var nextTask := if lastResource == Tree then Gold else Tree;
          lastResource := nextTask;
          villager.QueueTask(nextTask);
          villager.ReturnHome();
        }
      } else if eventType == "stop" || eventType == "interrupt" {
        if st == Mining || st == Chopping || st == WalkingToMine || st == WalkingToTree {
          villager.ReturnHome();
        }
      }
    }
  }
}
