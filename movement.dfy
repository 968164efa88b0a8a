/** Optional motion tuning passed with a move (src/axis/movement_parameters.rs). */
module Movement {
  import opened Wrappers

  datatype MovementParams = MovementParams(
    velocity: Option<real>,
    acceleration: Option<real>,
    deceleration: Option<real>,
    custom: map<string, real>)

  /** `MovementParams::new()`, which `default()` also returns. */
  function New(): (p: MovementParams)
    ensures p.velocity == None && p.acceleration == None && p.deceleration == None
    ensures p.custom == map[]
  {
    MovementParams(None, None, None, map[])
  }

  /** `MovementParams::default()`. */
  function Default(): (p: MovementParams)
    ensures p == New()
  {
    New()
  }

  function WithVelocity(p: MovementParams, v: real): MovementParams {
    p.(velocity := Some(v))
  }

  function WithAcceleration(p: MovementParams, a: real): MovementParams {
    p.(acceleration := Some(a))
  }

  function WithDeceleration(p: MovementParams, d: real): MovementParams {
    p.(deceleration := Some(d))
  }

  function WithCustomParam(p: MovementParams, name: string, value: real): MovementParams {
    p.(custom := p.custom[name := value])
  }

  /** Each builder sets its own field and leaves every other field as it was. */
  lemma BuildersSetOnlyTheirField(p: MovementParams, x: real, name: string)
    ensures WithVelocity(p, x) == MovementParams(Some(x), p.acceleration, p.deceleration, p.custom)
    ensures WithAcceleration(p, x) == MovementParams(p.velocity, Some(x), p.deceleration, p.custom)
    ensures WithDeceleration(p, x) == MovementParams(p.velocity, p.acceleration, Some(x), p.custom)
    ensures WithCustomParam(p, name, x).velocity == p.velocity
    ensures WithCustomParam(p, name, x).acceleration == p.acceleration
    ensures WithCustomParam(p, name, x).deceleration == p.deceleration
  {
  }

  /** `with_custom_param` maps `name` to `value`, overwriting, and keeps every other key. */
  lemma CustomParamOverwrites(p: MovementParams, name: string, value: real)
    ensures name in WithCustomParam(p, name, value).custom
    ensures WithCustomParam(p, name, value).custom[name] == value
    ensures WithCustomParam(p, name, value).custom.Keys == p.custom.Keys + {name}
    ensures forall k :: k in p.custom && k != name ==> WithCustomParam(p, name, value).custom[k] == p.custom[k]
  {
  }

  /** Builders on distinct fields commute; the same builder applied twice keeps the last value. */
  lemma BuildersCommuteAndLastWins(p: MovementParams, x: real, y: real, k1: string, k2: string)
    ensures WithAcceleration(WithVelocity(p, x), y) == WithVelocity(WithAcceleration(p, y), x)
    ensures WithDeceleration(WithVelocity(p, x), y) == WithVelocity(WithDeceleration(p, y), x)
    ensures WithDeceleration(WithAcceleration(p, x), y) == WithAcceleration(WithDeceleration(p, y), x)
    ensures WithCustomParam(WithVelocity(p, x), k1, y) == WithVelocity(WithCustomParam(p, k1, y), x)
    ensures WithCustomParam(WithAcceleration(p, x), k1, y) == WithAcceleration(WithCustomParam(p, k1, y), x)
    ensures WithCustomParam(WithDeceleration(p, x), k1, y) == WithDeceleration(WithCustomParam(p, k1, y), x)
    ensures k1 != k2 ==> WithCustomParam(WithCustomParam(p, k1, x), k2, y) == WithCustomParam(WithCustomParam(p, k2, y), k1, x)
    ensures WithVelocity(WithVelocity(p, x), y) == WithVelocity(p, y)
    ensures WithAcceleration(WithAcceleration(p, x), y) == WithAcceleration(p, y)
    ensures WithDeceleration(WithDeceleration(p, x), y) == WithDeceleration(p, y)
    ensures WithCustomParam(WithCustomParam(p, k1, x), k1, y) == WithCustomParam(p, k1, y)
  {
  }
}
