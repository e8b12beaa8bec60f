/** Value types shared by the whole model. */
module Basics {

  datatype Option<+T> = None | Some(value: T)

  /** Seconds, on whichever monotone clock the reader of the value uses. */
  type Time = real

  /** A `double` as far as the program distinguishes it: a real number, or something `isfinite` rejects. */
  datatype Num = Finite(v: real) | NotFinite

  /** The six components of a velocity message. */
  datatype Twist = Twist(lx: Num, ly: Num, lz: Num, ax: Num, ay: Num, az: Num) {
    predicate HasFiniteComponents() {
      lx.Finite? && ly.Finite? && lz.Finite? && ax.Finite? && ay.Finite? && az.Finite?
    }
  }

  const ZERO_TWIST := Twist(Finite(0.0), Finite(0.0), Finite(0.0), Finite(0.0), Finite(0.0), Finite(0.0))

  /** A velocity in the plane, the part of a message the docking controllers fill in. */
  datatype Velocity = Velocity(x: real, y: real, yaw: real) {
    function ToTwist(): Twist {
      Twist(Finite(x), Finite(y), Finite(0.0), Finite(0.0), Finite(0.0), Finite(yaw))
    }
  }

  const STOPPED := Velocity(0.0, 0.0, 0.0)

  function Abs(x: real): real { if x < 0.0 then -x else x }

  function Max(x: real, y: real): real { if x < y then y else x }

  function Min(x: real, y: real): real { if y < x then y else x }

  /** `std::clamp`, whose caller must order the bounds. */
  function Clamp(x: real, low: real, high: real): real
    requires low <= high
  {
    if x < low then low else if high < x then high else x
  }
}
