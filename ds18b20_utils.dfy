/**
 * The host-testable copies of the driver's two pure helpers: the unit
 * conversion and the result-code text.
 */
module Ds18b20Utils {
  import Ds18b20

  /** ds18b20_result_t values. */
  const Ok: int := 0
  const ErrorNoDevice: int := -1
  const ErrorCrc: int := -2
  const ErrorTimeout: int := -3

  /** ds18b20_celsius_to_fahrenheit, over the reals; its inverse is
      (f - 32) * 5 / 9. */
  function CelsiusToFahrenheit(celsius: real): (f: real)
    ensures (f - 32.0) * 5.0 / 9.0 == celsius
  {
    celsius * 9.0 / 5.0 + 32.0
  }

  /** The values the unit tests check, and the sensor's range endpoints. */
  lemma FahrenheitExamples()
    ensures CelsiusToFahrenheit(0.0) == 32.0
    ensures CelsiusToFahrenheit(100.0) == 212.0
    ensures CelsiusToFahrenheit(-40.0) == -40.0
    ensures CelsiusToFahrenheit(25.0) == 77.0
    ensures CelsiusToFahrenheit(-10.0) == 14.0
    ensures CelsiusToFahrenheit(125.0) == 257.0
    ensures CelsiusToFahrenheit(-55.0) == -67.0
  {
  }

  /** The conversion is strictly increasing, so the DS18B20's range
      -55..125 °C maps into -67..257 °F. */
  lemma FahrenheitMonotone(a: real, b: real)
    ensures a < b <==> CelsiusToFahrenheit(a) < CelsiusToFahrenheit(b)
    ensures -55.0 <= a <= 125.0 ==> -67.0 <= CelsiusToFahrenheit(a) <= 257.0
  {
  }

  /** ds18b20_error_string */
  function ErrorString(code: int): (s: string)
    ensures s == "Unknown error" <==> code !in {Ok, ErrorNoDevice, ErrorCrc, ErrorTimeout}
  {
    match code
    case 0 => "Success"
    case -1 => "No device found"
    case -2 => "Invalid reading"
    case -3 => "Timeout or invalid parameter"
    case _ => "Unknown error"
  }

  /** The four codes have four different texts, each the one the header
      documents. */
  lemma ErrorStringsDistinct(a: int, b: int)
    requires a in {Ok, ErrorNoDevice, ErrorCrc, ErrorTimeout}
    requires b in {Ok, ErrorNoDevice, ErrorCrc, ErrorTimeout}
    ensures ErrorString(Ok) == "Success"
    ensures ErrorString(ErrorNoDevice) == "No device found"
    ensures ErrorString(ErrorCrc) == "Invalid reading"
    ensures ErrorString(ErrorTimeout) == "Timeout or invalid parameter"
    ensures ErrorString(a) == ErrorString(b) <==> a == b
  {
  }

  /** The driver's result codes are the ones these helpers are written for. */
  lemma CodesAgree()
    ensures Ds18b20.Status.Ok.Code() == Ok && Ds18b20.Status.ErrorNoDevice.Code() == ErrorNoDevice
    ensures Ds18b20.Status.ErrorCrc.Code() == ErrorCrc && Ds18b20.Status.ErrorTimeout.Code() == ErrorTimeout
  {
  }

  /** Both helpers agree with the driver's copies for every input. */
  lemma AgreesWithDriver(celsius: real, code: int)
    ensures CelsiusToFahrenheit(celsius) == Ds18b20.CelsiusToFahrenheit(celsius)
    ensures ErrorString(code) == Ds18b20.ErrorString(code)
  {
  }
}
