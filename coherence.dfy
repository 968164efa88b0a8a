/** The position entries the cache holds agree with the axes, as long as names avoid ':', the
    registry is changed only through commands, and every backend moves only on a successful start
    (`Axes.MovesOnlyOnStart`, which the mock satisfies). `handle_move` drops the one key the move
    made stale, `handle_stop` drops nothing and relies on the stop keeping the position, and every
    query caches what it just read. `StopOnCreepingBackendServesStale` shows the last hypothesis
    cannot be dropped. */
module CacheCoherence {
  import opened Wrappers
  import opened Json
  import Axes
  import MockAxes
  import Movement
  import MC = MotorControllers
  import opened Manager

  predicate ColonFree(x: string) {
    forall i :: 0 <= i < |x| ==> x[i] != ':'
  }

  /** Controller names and axis names without ':', which makes cache keys unambiguous. */
  ghost predicate WellNamed(registry: map<string, MC.Controller>) {
    forall c :: c in registry ==>
      ColonFree(c) && forall j :: 0 <= j < |registry[c].axes| ==> ColonFree(Axes.Name(registry[c].axes[j]))
  }

  /** Every cached position of a resolvable axis is that axis's current position. */
  ghost predicate Coherent(s: State) {
    forall c, a :: c in s.registry && PositionKey(c, a) in s.cache && MC.GetAxis(s.registry[c], a).Ok? ==>
      ReadPosition(s.registry, c, a).Ok?
      && s.cache[PositionKey(c, a)] == Num(ReadPosition(s.registry, c, a).value)
  }

  /** Behind a colon-free prefix, the separator is the first ':'. */
  lemma FirstColonAt(x: string, r: string)
    requires ColonFree(x)
    ensures (x + ":" + r)[|x|] == ':'
    ensures forall i :: 0 <= i < |x| ==> (x + ":" + r)[i] != ':'
  {
  }

  /** Splitting at the first ':' is determined when the parts before it have none. */
  lemma SplitAtColon(x: string, r: string, x': string, r': string)
    requires ColonFree(x) && ColonFree(x')
    requires x + ":" + r == x' + ":" + r'
    ensures x == x' && r == r'
  {
    var whole := x + ":" + r;
    FirstColonAt(x, r);
    FirstColonAt(x', r');
    assert |x| == |x'|;
    assert x == whole[..|x|] == x';
    assert r == whole[|x| + 1..] == r';
  }

  /** With colon-free controller and axis names, a cache key determines all three parts. */
  lemma CacheKeyInjective(c: string, a: string, k: string, c': string, a': string, k': string)
    requires ColonFree(c) && ColonFree(a) && ColonFree(c') && ColonFree(a')
    requires CacheKey(c, a, k) == CacheKey(c', a', k')
    ensures c == c' && a == a' && k == k'
  {
    assert CacheKey(c, a, k) == c + ":" + (":" + (a + ":" + (":" + k)));
    assert CacheKey(c', a', k') == c' + ":" + (":" + (a' + ":" + (":" + k')));
    SplitAtColon(c, ":" + (a + ":" + (":" + k)), c', ":" + (a' + ":" + (":" + k')));
    assert a + ":" + (":" + k) == (":" + (a + ":" + (":" + k)))[1..];
    assert a' + ":" + (":" + k') == (":" + (a' + ":" + (":" + k')))[1..];
    SplitAtColon(a, ":" + k, a', ":" + k');
    assert k == (":" + k)[1..] && k' == (":" + k')[1..];
  }

  /** A lookup that succeeds in a well-named registry names a colon-free controller and axis. */
  lemma ResolvedIsColonFree(registry: map<string, MC.Controller>, c: string, a: string)
    requires WellNamed(registry)
    requires c in registry && MC.GetAxis(registry[c], a).Ok?
    ensures ColonFree(c) && ColonFree(a)
  {
    var j :| 0 <= j < |registry[c].axes| && Axes.Name(registry[c].axes[j]) == a;
  }

  /** The "position" attribute, whenever it is answered, is the axis's position. */
  lemma {:induction false} PositionAttributeIsPosition(c: MC.Controller, a: string)
    requires MC.GetAxis(c, a).Ok?
    ensures MC.GetAttribute(c, a, "position") == Axes.GetPosition(MC.GetAxis(c, a).value)
  {
    var ax := MC.GetAxis(c, a).value;
    Axes.PositionIsPositionAttribute(ax);
    if ax.Mock? {
      Axes.MockAvailableIffReadable(ax, "position");
    }
  }

  /** Storing a controller with the same axis names keeps the registry well named. */
  lemma UpdateKeepsNames(registry: map<string, MC.Controller>, c: string, updated: MC.Controller, i: nat)
    requires WellNamed(registry) && c in registry
    requires MC.UpdatedAt(registry[c], updated, i)
    ensures WellNamed(registry[c := updated])
  {
    assert forall j :: 0 <= j < |updated.axes| ==> Axes.Name(updated.axes[j]) == Axes.Name(registry[c].axes[j]);
  }

  /** Every registered axis moves only on a successful start. */
  ghost predicate OnlyStartsMove(registry: map<string, MC.Controller>) {
    forall c, j :: c in registry && 0 <= j < |registry[c].axes| ==> Axes.MovesOnlyOnStart(registry[c].axes[j])
  }

  /** Writing back a controller whose axis `i` changed keeps coherence, provided that the axis's
      position is unchanged or its position key is among the dropped ones. */
  lemma {:induction false} WriteBackPreservesCoherence(s: State, c0: string, updated: MC.Controller, i: nat, dropped: set<string>)
    requires WellNamed(s.registry) && OnlyStartsMove(s.registry) && Coherent(s)
    requires c0 in s.registry && MC.UpdatedAt(s.registry[c0], updated, i)
    requires Axes.MovesOnlyOnStart(updated.axes[i]) == Axes.MovesOnlyOnStart(s.registry[c0].axes[i])
    requires PositionKey(c0, Axes.Name(s.registry[c0].axes[i])) in s.cache - dropped ==>
      Axes.GetPosition(updated.axes[i]) == Axes.GetPosition(s.registry[c0].axes[i])
    ensures WellNamed(s.registry[c0 := updated]) && OnlyStartsMove(s.registry[c0 := updated])
    ensures Coherent(State(s.registry[c0 := updated], s.cache - dropped))
  {
    var ctrl := s.registry[c0];
    var out := State(s.registry[c0 := updated], s.cache - dropped);
    UpdateKeepsNames(s.registry, c0, updated, i);
    forall c, a | c in out.registry && PositionKey(c, a) in out.cache && MC.GetAxis(out.registry[c], a).Ok?
      ensures ReadPosition(out.registry, c, a).Ok?
      ensures out.cache[PositionKey(c, a)] == Num(ReadPosition(out.registry, c, a).value)
    {
      if c == c0 {
        MC.LookupAfterUpdate(ctrl, updated, i, a);
      }
      assert ReadPosition(out.registry, c, a) == ReadPosition(s.registry, c, a);
    }
  }

  /** A move keeps coherence: a successful start drops the moved axis's key, and a refused one
      leaves the position alone on a backend that moves only on start. */
  lemma {:induction false} MovePreservesCoherence(s: State, c0: string, a0: string, target: real, params: Option<Movement.MovementParams>)
    requires WellNamed(s.registry) && OnlyStartsMove(s.registry) && Coherent(s)
    ensures var out := HandleMove(s, c0, a0, target, params).state;
      WellNamed(out.registry) && OnlyStartsMove(out.registry) && Coherent(out)
  {
    if c0 in s.registry {
      var ctrl := s.registry[c0];
      var started := MC.Start(ctrl, a0, target, params);
      if MC.GetAxis(ctrl, a0).Ok? {
        var i := MC.FindAxis(ctrl.axes, a0).value;
        if started.0.Ok? {
          WriteBackPreservesCoherence(s, c0, started.1, i, {PositionKey(c0, a0)});
        } else {
          assert s.cache - {} == s.cache;
          WriteBackPreservesCoherence(s, c0, started.1, i, {});
        }
      } else {
        assert s.registry[c0 := started.1] == s.registry;
      }
    }
  }

  /** A stop keeps coherence, on backends that move only on start. */
  lemma {:induction false} StopPreservesCoherence(s: State, c0: string, a0: string)
    requires WellNamed(s.registry) && OnlyStartsMove(s.registry) && Coherent(s)
    ensures var out := HandleStop(s, c0, a0).state;
      WellNamed(out.registry) && OnlyStartsMove(out.registry) && Coherent(out)
  {
    if c0 in s.registry {
      var ctrl := s.registry[c0];
      var stopped := MC.Stop(ctrl, a0);
      if MC.GetAxis(ctrl, a0).Ok? {
        var i := MC.FindAxis(ctrl.axes, a0).value;
        assert s.cache - {} == s.cache;
        WriteBackPreservesCoherence(s, c0, stopped.1, i, {});
      } else {
        assert s.registry[c0 := stopped.1] == s.registry;
      }
    }
  }

  /** Inserting the value just read under a key of colon-free parts keeps the cache coherent,
      provided that a position key is only ever given the position read. */
  lemma {:induction false} InsertPreservesCoherence(s: State, c0: string, a0: string, kind: string, v: Value)
    requires WellNamed(s.registry) && Coherent(s)
    requires c0 in s.registry && MC.GetAxis(s.registry[c0], a0).Ok?
    requires kind == "position" ==> ReadPosition(s.registry, c0, a0).Ok? && v == Num(ReadPosition(s.registry, c0, a0).value)
    ensures Coherent(s.(cache := s.cache[CacheKey(c0, a0, kind) := v]))
  {
    var out := s.(cache := s.cache[CacheKey(c0, a0, kind) := v]);
    ResolvedIsColonFree(s.registry, c0, a0);
    forall c, a | c in out.registry && PositionKey(c, a) in out.cache && MC.GetAxis(out.registry[c], a).Ok?
      ensures ReadPosition(out.registry, c, a).Ok?
      ensures out.cache[PositionKey(c, a)] == Num(ReadPosition(out.registry, c, a).value)
    {
      if PositionKey(c, a) == CacheKey(c0, a0, kind) {
        ResolvedIsColonFree(s.registry, c, a);
        CacheKeyInjective(c, a, "position", c0, a0, kind);
      }
    }
  }

  /** Every command keeps the registry well named and the cache coherent. */
  lemma {:induction false} StepPreservesCoherence(s: State, cmd: Command)
    requires WellNamed(s.registry) && OnlyStartsMove(s.registry) && Coherent(s)
    ensures var out := Step(s, cmd).state;
      WellNamed(out.registry) && OnlyStartsMove(out.registry) && Coherent(out)
  {
    match cmd
    case Move(c, a, target, params) => MovePreservesCoherence(s, c, a, target, params);
    case Stop(c, a) => StopPreservesCoherence(s, c, a);
    case GetPos(c, a) =>
      if PositionKey(c, a) !in s.cache && ReadPosition(s.registry, c, a).Ok? {
        InsertPreservesCoherence(s, c, a, "position", Num(ReadPosition(s.registry, c, a).value));
      }
    case GetState(c, a) =>
      if StatusKey(c, a) !in s.cache && ReadState(s.registry, c, a).Ok? {
        InsertPreservesCoherence(s, c, a, "status", StatusJson(ReadState(s.registry, c, a).value));
      }
    case GetAttr(c, a, attr) =>
      if CacheKey(c, a, attr) !in s.cache && ReadAttribute(s.registry, c, a, attr).Ok? {
        if attr == "position" {
          PositionAttributeIsPosition(s.registry[c], a);
        }
        InsertPreservesCoherence(s, c, a, attr, Num(ReadAttribute(s.registry, c, a, attr).value));
      }
    case _ =>
  }

  /** ... and so does every queue of commands. */
  lemma {:induction false} RunPreservesCoherence(s: State, cmds: seq<Command>)
    requires WellNamed(s.registry) && OnlyStartsMove(s.registry) && Coherent(s)
    ensures var out := Run(s, cmds).1;
      WellNamed(out.registry) && OnlyStartsMove(out.registry) && Coherent(out)
    decreases |cmds|
  {
    if |cmds| > 0 {
      StepPreservesCoherence(s, cmds[0]);
      RunPreservesCoherence(Step(s, cmds[0]).state, cmds[1..]);
    }
  }

  /** In a coherent state a position query answers what the axis reports, hit or miss. */
  lemma CoherentPositionIsCurrent(s: State, c: string, a: string)
    requires Coherent(s)
    requires c in s.registry && MC.GetAxis(s.registry[c], a).Ok?
    ensures var read := ReadPosition(s.registry, c, a);
      HandleGetPos(s, c, a).result == (if read.Ok? then Ok(PositionReply(c, a, Num(read.value))) else Err(read.error))
  {
  }

  /** Registering a well-named controller under a name with no cached positions keeps coherence. */
  lemma RegisterKeepsCoherence(s: State, name: string, ctrl: MC.Controller)
    requires WellNamed(s.registry) && OnlyStartsMove(s.registry) && Coherent(s)
    requires ColonFree(name) && forall j :: 0 <= j < |ctrl.axes| ==> ColonFree(Axes.Name(ctrl.axes[j]))
    requires forall j :: 0 <= j < |ctrl.axes| ==> Axes.MovesOnlyOnStart(ctrl.axes[j])
    requires forall a :: PositionKey(name, a) !in s.cache
    ensures WellNamed(s.registry[name := ctrl]) && OnlyStartsMove(s.registry[name := ctrl])
    ensures Coherent(s.(registry := s.registry[name := ctrl]))
  {
    var out := s.(registry := s.registry[name := ctrl]);
    forall c, a | c in out.registry && PositionKey(c, a) in out.cache && MC.GetAxis(out.registry[c], a).Ok?
      ensures ReadPosition(out.registry, c, a).Ok?
      ensures out.cache[PositionKey(c, a)] == Num(ReadPosition(out.registry, c, a).value)
    {
      assert c != name;
      assert ReadPosition(out.registry, c, a) == ReadPosition(s.registry, c, a);
    }
  }

  /** Unregistering and evicting keep coherence. */
  lemma RemovalKeepsCoherence(s: State, name: string, keys: set<string>)
    requires WellNamed(s.registry) && OnlyStartsMove(s.registry) && Coherent(s)
    ensures WellNamed(s.registry - {name}) && OnlyStartsMove(s.registry - {name})
    ensures Coherent(State(s.registry - {name}, s.cache - keys))
  {
    var out := State(s.registry - {name}, s.cache - keys);
    forall c, a | c in out.registry && PositionKey(c, a) in out.cache && MC.GetAxis(out.registry[c], a).Ok?
      ensures ReadPosition(out.registry, c, a).Ok?
      ensures out.cache[PositionKey(c, a)] == Num(ReadPosition(out.registry, c, a).value)
    {
      assert ReadPosition(out.registry, c, a) == ReadPosition(s.registry, c, a);
    }
  }

  /** Replacing a controller whose position is cached breaks the guarantee: the old position is
      served although the new axis is elsewhere, since registration does not touch the cache. */
  lemma ReRegistrationServesStalePosition()
    ensures var axis := MockAxes.New("X", true);
      var previous := MC.Controller("m", [Axes.Mock(axis.(position := 5.0))], MC.MockOverrides);
      var replacement := MC.Controller("m", [Axes.Mock(axis)], MC.MockOverrides);
      var s := State(map["m" := previous], map[PositionKey("m", "X") := Num(5.0)]);
      var replaced := s.(registry := s.registry["m" := replacement]);
      Coherent(s) && !Coherent(replaced)
      && HandleGetPos(replaced, "m", "X").result == Ok(PositionReply("m", "X", Num(5.0)))
      && ReadPosition(replaced.registry, "m", "X") == Ok(0.0)
  {
    var axis := MockAxes.New("X", true);
    var previous := MC.Controller("m", [Axes.Mock(axis.(position := 5.0))], MC.MockOverrides);
    var replacement := MC.Controller("m", [Axes.Mock(axis)], MC.MockOverrides);
    var s := State(map["m" := previous], map[PositionKey("m", "X") := Num(5.0)]);
    assert MC.GetAxis(previous, "X") == Ok(previous.axes[0]);
    assert MC.GetAxis(replacement, "X") == Ok(replacement.axes[0]);
    forall c, a | c in s.registry && PositionKey(c, a) in s.cache && MC.GetAxis(s.registry[c], a).Ok?
      ensures ReadPosition(s.registry, c, a).Ok?
      ensures s.cache[PositionKey(c, a)] == Num(ReadPosition(s.registry, c, a).value)
    {
      assert c == "m";
      var j :| 0 <= j < |previous.axes| && Axes.Name(previous.axes[j]) == a;
      assert a == "X";
    }
  }

  /** Without colon-free names, two axes share one position key: with controller "a" owning axis
      "b::c" and controller "a::b" owning axis "c", a read of the first caches its position, and a
      read of the second is answered with it although that axis stands elsewhere. */
  lemma {:induction false} ColonNamesShareCacheEntry()
    ensures PositionKey("a::b", "c") == PositionKey("a", "b::c")
    ensures var first := MC.Controller("a", [Axes.Mock(MockAxes.New("b::c", true))], MC.MockOverrides);
      var second := MC.Controller("a::b", [Axes.Mock(MockAxes.New("c", true).(position := 5.0))], MC.MockOverrides);
      var s := State(map["a" := first, "a::b" := second], map[]);
      var read := HandleGetPos(s, "a", "b::c").state;
      !WellNamed(s.registry)
      && HandleGetPos(read, "a::b", "c").result == Ok(PositionReply("a::b", "c", Num(0.0)))
      && ReadPosition(read.registry, "a::b", "c") == Ok(5.0)
      && !Coherent(read)
  {
    assert "a::b" + "::" + "c" + "::" + "position" == "a" + "::" + "b::c" + "::" + "position";
    var first := MC.Controller("a", [Axes.Mock(MockAxes.New("b::c", true))], MC.MockOverrides);
    var second := MC.Controller("a::b", [Axes.Mock(MockAxes.New("c", true).(position := 5.0))], MC.MockOverrides);
    var s := State(map["a" := first, "a::b" := second], map[]);
    assert !ColonFree("a::b") by {
      assert "a::b"[1] == ':';
    }
    assert MC.FindAxis(first.axes, "b::c") == Some(0);
    assert MC.FindAxis(second.axes, "c") == Some(0);
    assert ReadPosition(s.registry, "a", "b::c") == Ok(0.0);
    assert ReadPosition(s.registry, "a::b", "c") == Ok(5.0);
  }

  /** A generic backend at position 0 whose stop creeps forward by one unit. */
  function CreepingAxis(): Axes.Axis {
    Axes.Scripted(
      "X", 0,
      (st: nat, target: real, params: Option<Movement.MovementParams>) => (Ok(()), st),
      (st: nat) => (Ok(()), st + 1),
      (st: nat) => Err("no state report"),
      (st: nat, name: string) => if name == "position" then Ok(st as real) else Err("Unknown parameter: " + name))
  }

  /** Without the hypothesis that only starts move an axis, leaving the cache alone on a stop
      serves a stale position: a read caches 0, the stop moves the axis to 1, and the next read
      still answers 0. */
  lemma {:induction false} StopOnCreepingBackendServesStale()
    ensures var s := State(map["d" := MC.Controller("d", [CreepingAxis()], MC.Standard)], map[]);
      var read := HandleGetPos(s, "d", "X").state;
      var stopped := HandleStop(read, "d", "X");
      !Axes.MovesOnlyOnStart(CreepingAxis())
      && Coherent(read)
      && stopped.result == Ok(StopAck())
      && HandleGetPos(stopped.state, "d", "X").result == Ok(PositionReply("d", "X", Num(0.0)))
      && ReadPosition(stopped.state.registry, "d", "X") == Ok(1.0)
      && !Coherent(stopped.state)
  {
    var ax := CreepingAxis();
    var ctrl := MC.Controller("d", [ax], MC.Standard);
    var s := State(map["d" := ctrl], map[]);
    assert ax.attribute(ax.onStop(0).1, "position") != ax.attribute(0, "position");
    assert MC.FindAxis(ctrl.axes, "X") == Some(0);
    assert ReadPosition(s.registry, "d", "X") == Ok(0.0);
    assert WellNamed(s.registry) by {
      assert forall j :: 0 <= j < |ctrl.axes| ==> Axes.Name(ctrl.axes[j]) == "X";
    }
    InsertPreservesCoherence(s, "d", "X", "position", Num(0.0));
    var read := HandleGetPos(s, "d", "X").state;
    assert read == s.(cache := s.cache[PositionKey("d", "X") := Num(0.0)]);
    var after := MC.Stop(ctrl, "X").1;
    assert after.axes == [ax.(store := 1)];
    assert MC.FindAxis(after.axes, "X") == Some(0);
    assert ReadPosition(HandleStop(read, "d", "X").state.registry, "d", "X") == Ok(1.0);
  }
}
