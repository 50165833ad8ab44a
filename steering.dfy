/** The banded steering policy at the end of `Navigator.get_move`: a hard
    turn on the spot outside a +-10 degree band, a soft turn while moving
    forward inside it, and straight ahead on a zero error. */
module Steering {
  import opened Floats

  const SOFT_TURN: real := 0.1
  const HARD_TURN: real := 0.3
  const DEF_SPD: real := 0.3
  const BAND: real := 10.0

  /** The argument list passed to the drone's `move`: lateral, forward,
      vertical and turn speeds, in that order. */
  datatype Command = Command(lateral: real, forward: real, vertical: real, turn: real)

  /** The angle error lies outside the +-10 degree band. */
  predicate Outside(delta: Float)
  {
    Gt(delta, BAND) || Lt(delta, -BAND)
  }

  /** The command for the signed angle error `delta` (the drone's
      `angleDiff`, which may be any float, NaN included).  It never moves
      sideways or vertically; it stops exactly when the error is outside
      the band; it turns against the error; the turn is hard outside the
      band and soft inside it. */
  function Band(delta: Float): (cmd: Command)
    ensures cmd.lateral == 0.0 && cmd.vertical == 0.0
    ensures cmd.forward == 0.0 <==> Outside(delta)
    ensures cmd.forward == 0.0 || cmd.forward == DEF_SPD
    ensures cmd.turn < 0.0 <==> Gt(delta, 0.0)
    ensures cmd.turn > 0.0 <==> Lt(delta, 0.0)
    ensures Outside(delta) ==> cmd.turn == HARD_TURN || cmd.turn == -HARD_TURN
    ensures !Outside(delta) ==> cmd.turn == 0.0 || cmd.turn == SOFT_TURN || cmd.turn == -SOFT_TURN
  {
    if Gt(delta, BAND) then Command(0.0, 0.0, 0.0, -HARD_TURN)
    else if Lt(delta, -BAND) then Command(0.0, 0.0, 0.0, HARD_TURN)
    else if Gt(delta, 0.0) then Command(0.0, DEF_SPD, 0.0, -SOFT_TURN)
    else if Lt(delta, 0.0) then Command(0.0, DEF_SPD, 0.0, SOFT_TURN)
    else Command(0.0, DEF_SPD, 0.0, 0.0)
  }

  /** The five bands for a finite angle error. */
  lemma BandTable(d: real)
    ensures d > 10.0 ==> Band(Finite(d)) == Command(0.0, 0.0, 0.0, -0.3)
    ensures d < -10.0 ==> Band(Finite(d)) == Command(0.0, 0.0, 0.0, 0.3)
    ensures 0.0 < d <= 10.0 ==> Band(Finite(d)) == Command(0.0, 0.3, 0.0, -0.1)
    ensures -10.0 <= d < 0.0 ==> Band(Finite(d)) == Command(0.0, 0.3, 0.0, 0.1)
    ensures d == 0.0 ==> Band(Finite(d)) == Command(0.0, 0.3, 0.0, 0.0)
  {
  }

  /** A NaN error fails every comparison and falls through to the last
      branch: full default speed ahead with no turn. */
  lemma BandOnNaN()
    ensures Band(NaN) == Command(0.0, DEF_SPD, 0.0, 0.0)
  {
  }

  /** Mirroring the error mirrors the turn and keeps the forward speed. */
  lemma BandMirror(delta: Float)
    ensures Band(Neg(delta)).forward == Band(delta).forward
    ensures Band(Neg(delta)).turn == -Band(delta).turn
  {
  }

  /** A larger error never turns less hard in the correcting direction:
      the turn speed does not increase with the error. */
  lemma BandMonotone(d1: real, d2: real)
    requires d1 <= d2
    ensures Band(Finite(d2)).turn <= Band(Finite(d1)).turn
  {
  }
}
