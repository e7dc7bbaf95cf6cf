/**
 * The argument check every drawable object performs on construction, and the fields it
 * sets up. A coordinate, radius or shadow blur must pass `isNaN`; both colours must be strings;
 * otherwise construction fails with "Incorrect data type".
 */
module CanvasObjects {

  /** An argument that should be numeric: a number, or a value `isNaN` reports as not a number. */
  datatype NumArg = Num(value: real) | NotNumber

  /** An argument that should be a string: a string, or a value of any other type. */
  datatype StrArg = Text(value: string) | NotText

  datatype Error = IncorrectDataType

  datatype Result<T> = Ok(value: T) | Err(error: Error)

  /** The fields a drawable object holds after construction. */
  datatype Base = Base(x: real, y: real, color: string, sb: real, sc: string, radius: real)

  /** Whether the arguments pass the constructor's type check. */
  predicate WellTyped(x: NumArg, y: NumArg, c: StrArg, sb: NumArg, sc: StrArg, r: NumArg) {
    x.Num? && y.Num? && r.Num? && sb.Num? && c.Text? && sc.Text?
  }

  /** The constructor: fails on any argument of the wrong kind, otherwise keeps the values given. */
  function NewCanvasObject(x: NumArg, y: NumArg, c: StrArg, sb: NumArg, sc: StrArg, r: NumArg): (res: Result<Base>)
    ensures res.Err? <==> (x.NotNumber? || y.NotNumber? || r.NotNumber? || sb.NotNumber? || c.NotText? || sc.NotText?)
    ensures res.Err? ==> res.error == IncorrectDataType
    ensures res.Ok? ==> res.value.x == x.value && res.value.y == y.value && res.value.radius == r.value &&
                        res.value.sb == sb.value && res.value.color == c.value && res.value.sc == sc.value
  {
    if !WellTyped(x, y, c, sb, sc, r) then Err(IncorrectDataType)
    else Ok(Base(x.value, y.value, c.value, sb.value, sc.value, r.value))
  }
}
