/**
 * Start-up configuration of the motors service: the force-to-ESC curve,
 * chosen by name from a closed set; the motor count; and the output driver.
 *
 * The parameter store that supplies the three values is outside the model:
 * the values arrive here as arguments.
 */
module Configuration {
  import opened Wrappers

  /** The calibration curves the service knows by name. */
  datatype Curve = Mk12Roxxy282735 | Hk20Roxxy282735 | Hexfet20Suppo221213

  /** The hardware drivers the service can bind `write_motors` to. */
  datatype Driver = ArduinoPwms

  /** Start-up failures. */
  datatype Error =
    | InvalidArgument   // -EINVAL
    | IoError           // -EIO
    | OutOfMemory       // -ENOMEM

  /** The configuration name of a curve. */
  function CurveName(c: Curve): string {
    match c
    case Mk12Roxxy282735 => "mk12_roxxy282735_1045"
    case Hk20Roxxy282735 => "hk20_roxxy282735_1045"
    case Hexfet20Suppo221213 => "hexfet20_suppo221213_1045"
  }

  /** Curve lookup by name; any name outside the three known ones is `-EINVAL`. */
  function SelectCurve(name: string): (r: Result<Curve, Error>)
    ensures r.Success? ==> CurveName(r.value) == name
    ensures r.Failure? <==> forall c: Curve :: CurveName(c) != name
    ensures r.Failure? ==> r.error == InvalidArgument
  {
    if name == "mk12_roxxy282735_1045" then Success(Mk12Roxxy282735)
    else if name == "hk20_roxxy282735_1045" then Success(Hk20Roxxy282735)
    else if name == "hexfet20_suppo221213_1045" then Success(Hexfet20Suppo221213)
    else Failure(InvalidArgument)
  }

  /** Selecting a curve by its own name selects that curve. */
  lemma SelectCurveName(c: Curve)
    ensures SelectCurve(CurveName(c)) == Success(c)
  {
  }

  /**
   * Driver binding: `write_motors` is bound only for "arduino". Any other
   * name is not an error; the function pointer is simply left unbound.
   */
  function SelectDriver(name: string): (r: Option<Driver>)
    ensures r.Some? <==> name == "arduino"
  {
    if name == "arduino" then Some(ArduinoPwms) else None
  }

  /**
   * The settings read at start-up. `motorCount` is read and logged but never
   * used afterwards: the number of outputs comes from each message.
   */
  datatype Config = Config(curve: Curve, motorCount: int, driver: Option<Driver>)

  /**
   * Start-up configuration. An unknown curve name aborts start-up; an unknown
   * driver name does not.
   */
  function Configure(curveName: string, motorCount: int, driverName: string): (r: Result<Config, Error>)
    ensures r.Failure? <==> SelectCurve(curveName).Failure?
    ensures r.Success? ==>
      && SelectCurve(curveName) == Success(r.value.curve)
      && r.value.motorCount == motorCount
      && (r.value.driver.Some? <==> driverName == "arduino")
  {
    match SelectCurve(curveName)
    case Failure(e) => Failure(e)
    case Success(c) => Success(Config(c, motorCount, SelectDriver(driverName)))
  }
}
