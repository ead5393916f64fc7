/** The value types the report pipeline works on: the enums with their
    codes, a sensor reading, and the device snapshot a report is made for. */
module Domain {
  import opened Common
  import opened Calendar

  /** ReadingType; its code is what fromString returns. */
  datatype ReadingType = Temperature | Humidity

  function ReadingTypeCode(t: ReadingType): string
  {
    match t
    case Temperature => "temperature"
    case Humidity => "humidity"
  }

  datatype Branch = NewYork | SaoPaulo | Salvador

  function BranchCode(b: Branch): string
  {
    match b
    case NewYork => "new_york"
    case SaoPaulo => "sao_paulo"
    case Salvador => "salvador"
  }

  /** Distinct branches have distinct codes. */
  lemma BranchCodeInjective()
    ensures forall a, b :: BranchCode(a) == BranchCode(b) ==> a == b
  {
    forall a, b | BranchCode(a) == BranchCode(b)
      ensures a == b
    {
      assert BranchCode(a)[0] == BranchCode(b)[0];
      assert |BranchCode(a)| == |BranchCode(b)|;
    }
  }

  /** The constant names of Branch. */
  const BRANCH_NAMES: map<string, Branch> :=
    map["NEW_YORK" := NewYork, "SAO_PAULO" := SaoPaulo, "SALVADOR" := Salvador]

  /** Branch.valueOf: the constant with exactly this name, or None where
      Java throws IllegalArgumentException. */
  function BranchValueOf(name: string): Option<Branch>
  {
    if name in BRANCH_NAMES then Some(BRANCH_NAMES[name]) else None
  }

  /** The device's Function enum. */
  datatype DeviceFunction = Equipment | Environment

  function FunctionCode(f: DeviceFunction): string
  {
    match f
    case Equipment => "equipment"
    case Environment => "environment"
  }

  /** The two functions have distinct codes. */
  lemma FunctionCodeInjective()
    ensures forall a, b :: FunctionCode(a) == FunctionCode(b) ==> a == b
  {
    forall a, b | FunctionCode(a) == FunctionCode(b)
      ensures a == b
    {
      assert FunctionCode(a)[1] == FunctionCode(b)[1];
    }
  }

  const FUNCTION_NAMES: map<string, DeviceFunction> :=
    map["EQUIPMENT" := Equipment, "ENVIRONMENT" := Environment]

  /** Function.valueOf. */
  function FunctionValueOf(name: string): Option<DeviceFunction>
  {
    if name in FUNCTION_NAMES then Some(FUNCTION_NAMES[name]) else None
  }

  datatype DeviceType = THR316 | THR316D | TH16RF | ESP32 | ESP8266 | ESP12 | TH

  datatype Sensor = DS18B20 | AM2301 | SI7021 | DHT11

  /** One sensor reading: its instant and its value. */
  datatype Reading = Reading(timestamp: Instant, value: real)

  /** The device snapshot a report is generated for. */
  datatype Device = Device(
    name: string,
    tag: string,
    sector: string,
    typeOfEquipment: string,
    patrimony: int,
    deviceFunction: DeviceFunction,
    minWorkingTemp: real,
    maxWorkingTemp: real,
    minWorkingHumidity: real,
    maxWorkingHumidity: real)
}
