/**
  The result of one entity update (src/game_event.rs). The spawned entity is
  a type parameter: the objects use `GameEvent<BasicLaser>`, the pure model
  `GameEvent<LaserState>`.
*/
module GameEvents {
  datatype GameEvent<Entity> = None | TimerFire | PlayerShoot(entity: Entity)
}
