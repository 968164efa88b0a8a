/** What the cache does and does not affect, stated over `Manager.Step` and `Manager.Run`. */
module CacheProperties {
  import opened Wrappers
  import opened Json
  import Axes
  import MC = MotorControllers
  import MockAxes
  import Movement
  import opened Manager

  /** The cache keys a command may read or write. */
  function TouchedKeys(cmd: Command): (keys: set<string>)
    ensures |keys| <= 1
  {
    match cmd
    case Move(c, a, _, _) => {PositionKey(c, a)}
    case GetPos(c, a) => {PositionKey(c, a)}
    case GetState(c, a) => {StatusKey(c, a)}
    case GetAttr(c, a, attr) => {CacheKey(c, a, attr)}
    case _ => {}
  }

  /** The three cached queries. */
  predicate IsCachedRead(cmd: Command) {
    cmd.GetPos? || cmd.GetState? || cmd.GetAttr?
  }

  /** Two caches that agree on a set of keys. */
  predicate AgreeOn(m: map<string, Value>, m': map<string, Value>, keys: set<string>) {
    forall k :: k in keys ==> (k in m <==> k in m') && (k in m ==> m[k] == m'[k])
  }

  /** A command changes at most its own keys, and never adds or removes a controller. */
  lemma StepTouchesOnlyItsKeys(s: State, cmd: Command)
    ensures Step(s, cmd).state.cache - TouchedKeys(cmd) == s.cache - TouchedKeys(cmd)
    ensures Step(s, cmd).state.registry.Keys == s.registry.Keys
  {
    var after := Step(s, cmd).state.cache;
    var keys := TouchedKeys(cmd);
    assert forall k :: k !in keys ==> (k in after <==> k in s.cache) && (k in after ==> after[k] == s.cache[k]);
  }

  /** A command's answer depends on the cache only through its own keys: list, stop, move and the
      parameter queries do not consult it at all. */
  lemma StepDependsOnlyOnItsKeys(s: State, cache: map<string, Value>, cmd: Command)
    requires AgreeOn(s.cache, cache, TouchedKeys(cmd))
    ensures Step(s.(cache := cache), cmd).result == Step(s, cmd).result
  {
    match cmd
    case GetPos(c, a) => assert PositionKey(c, a) in TouchedKeys(cmd);
    case GetState(c, a) => assert StatusKey(c, a) in TouchedKeys(cmd);
    case GetAttr(c, a, attr) => assert CacheKey(c, a, attr) in TouchedKeys(cmd);
    case _ =>
  }

  /** A cache hit is answered without the registry, so it succeeds with the stored value even after
      the controller has been unregistered or replaced, and it changes nothing. */
  lemma HitIgnoresRegistry(s: State, registry: map<string, MC.Controller>, cmd: Command)
    requires IsCachedRead(cmd)
    requires TouchedKeys(cmd) <= s.cache.Keys
    ensures Step(s.(registry := registry), cmd).result == Step(s, cmd).result
    ensures Step(s, cmd).result.Ok? && Step(s, cmd).state == s
  {
    match cmd
    case GetPos(c, a) => assert PositionKey(c, a) in TouchedKeys(cmd);
    case GetState(c, a) => assert StatusKey(c, a) in TouchedKeys(cmd);
    case GetAttr(c, a, attr) => assert CacheKey(c, a, attr) in TouchedKeys(cmd);
  }

  /** Asking the same successful query twice gives the same answer, and the second time changes
      nothing: whether the first was a hit or a miss is not observable in the reply. */
  lemma RepeatedReadAgrees(s: State, cmd: Command)
    requires IsCachedRead(cmd)
    requires Step(s, cmd).result.Ok?
    ensures Step(Step(s, cmd).state, cmd) == Handled(Step(s, cmd).result, Step(s, cmd).state)
  {
  }

  /** A failed read caches nothing. */
  lemma FailedReadCachesNothing(s: State, cmd: Command)
    requires IsCachedRead(cmd)
    requires Step(s, cmd).result.Err?
    ensures Step(s, cmd).state == s
  {
  }

  /** After a successful move, the next position query of that axis goes to the axis, whatever
      the cache held before; a refused move leaves the cache as it was, so a cached position is
      still served. */
  lemma MoveForcesFreshPosition(s: State, c: string, a: string, target: real, params: Option<Movement.MovementParams>)
    ensures var moved := HandleMove(s, c, a, target, params);
      moved.result.Ok? ==>
        var read := ReadPosition(moved.state.registry, c, a);
        HandleGetPos(moved.state, c, a).result
          == (if read.Ok? then Ok(PositionReply(c, a, Num(read.value))) else Err(read.error))
    ensures var moved := HandleMove(s, c, a, target, params);
      moved.result.Err? ==>
        moved.state.cache == s.cache
        && (PositionKey(c, a) in s.cache ==> HandleGetPos(moved.state, c, a).result == HandleGetPos(s, c, a).result)
  {
  }

  /** For a mock axis, a move followed by a position query reports the target, even if an older
      position was cached. */
  lemma {:induction false} MockMoveThenPositionIsTarget(s: State, c: string, a: string, target: real)
    requires c in s.registry
    requires MC.GetAxis(s.registry[c], a).Ok? && MC.GetAxis(s.registry[c], a).value.Mock?
    ensures HandleMove(s, c, a, target, None).result == Ok(MoveAck(target))
    ensures HandleGetPos(HandleMove(s, c, a, target, None).state, c, a).result
            == Ok(PositionReply(c, a, Num(target)))
  {
    var ctrl := s.registry[c];
    var i := MC.FindAxis(ctrl.axes, a).value;
    var started := MC.Start(ctrl, a, target, None);
    assert !MockAxes.RejectsParams(ctrl.axes[i].mock, None);
    MC.LookupAfterUpdate(ctrl, started.1, i, a);
  }

  /** State queries and attribute queries for "status" share one key: after a state query is
      cached, an attribute query for "status" is a hit that answers with the state snapshot, which
      is not a number. */
  lemma StatusKeySharedWithAttribute(s: State, c: string, a: string)
    requires StatusKey(c, a) !in s.cache
    requires ReadState(s.registry, c, a).Ok?
    ensures var after := HandleGetState(s, c, a).state;
      HandleGetAttr(after, c, a, "status").result
        == Ok(AttributeReply(c, a, "status", StatusJson(ReadState(s.registry, c, a).value)))
      && !StatusJson(ReadState(s.registry, c, a).value).Num?
  {
    assert CacheKey(c, a, "status") == StatusKey(c, a);
  }

  /** Running two queues back to back is running their concatenation. */
  lemma {:induction false} RunAppend(s: State, xs: seq<Command>, ys: seq<Command>)
    ensures Run(s, xs + ys) == (Run(s, xs).0 + Run(Run(s, xs).1, ys).0, Run(Run(s, xs).1, ys).1)
    decreases |xs|
  {
    if |xs| == 0 {
      assert xs + ys == ys;
      assert Run(s, xs) == ([], s);
      assert [] + Run(s, ys).0 == Run(s, ys).0;
    } else {
      var h := Step(s, xs[0]);
      assert (xs + ys)[0] == xs[0];
      assert (xs + ys)[1..] == xs[1..] + ys;
      RunAppend(h.state, xs[1..], ys);
      var mid := Run(h.state, xs[1..]);
      assert [h.result] + (mid.0 + Run(mid.1, ys).0) == ([h.result] + mid.0) + Run(mid.1, ys).0;
    }
  }

  /** The i-th result is the i-th command's answer in the state its predecessors left. */
  lemma {:induction false} RunResultAt(s: State, cmds: seq<Command>, i: nat)
    requires i < |cmds|
    ensures Run(s, cmds).0[i] == Step(Run(s, cmds[..i]).1, cmds[i]).result
  {
    assert cmds == cmds[..i] + cmds[i..];
    RunAppend(s, cmds[..i], cmds[i..]);
  }
}
