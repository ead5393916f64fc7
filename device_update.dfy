/** The partial update of a device's descriptive fields from a
    DeviceUpdateDTO, shared by the DeviceById and DeviceByUserId
    projections: each non-null field of the request overwrites the matching
    field, a null field keeps it, and an unknown branch or function name
    raises IllegalArgumentException part-way through, after the fields
    before it have been written. */
module DeviceUpdate {
  import opened Common
  import opened Domain

  /** The fields update may write, in the order update writes them. */
  datatype DeviceFields = DeviceFields(
    name: string,
    branch: Branch,
    deviceFunction: DeviceFunction,
    typeOfEquipment: string,
    patrimony: int,
    tag: string,
    sector: string,
    minWorkingTemp: real,
    maxWorkingTemp: real,
    minWorkingHumidity: real,
    maxWorkingHumidity: real,
    ip: string,
    deviceType: DeviceType,
    sensor: Sensor)

  /** DeviceUpdateDTO: None stands for a null component. Branch and
      function arrive as enum constant names. */
  datatype DeviceUpdateDTO = DeviceUpdateDTO(
    name: Option<string>,
    branch: Option<string>,
    functionName: Option<string>,
    equipment: Option<string>,
    patrimony: Option<int>,
    tag: Option<string>,
    sector: Option<string>,
    minWorkingTemp: Option<real>,
    maxWorkingTemp: Option<real>,
    minWorkingHumidity: Option<real>,
    maxWorkingHumidity: Option<real>,
    deviceType: Option<DeviceType>,
    sensor: Option<Sensor>,
    ip: Option<string>)

  /** The IllegalArgumentException of Branch.valueOf or Function.valueOf. */
  datatype UpdateError = InvalidBranch(branchName: string) | InvalidFunction(functionName: string)

  /** The outcome of update: the fields as the entity holds them afterwards,
      and the exception it threw, if any. */
  datatype UpdateOutcome = UpdateOutcome(fields: DeviceFields, error: Option<UpdateError>)

  const ALL_NULL: DeviceUpdateDTO :=
    DeviceUpdateDTO(None, None, None, None, None, None, None, None, None, None, None, None, None, None)

  /** A non-null request value, or the current one. */
  function Pick<T>(requested: Option<T>, current: T): T
  {
    if requested.Some? then requested.value else current
  }

  /** The fields after the steps following the enum conversions, which
      cannot fail. */
  function ApplyPlain(f: DeviceFields, d: DeviceUpdateDTO): DeviceFields
  {
    DeviceFields(f.name, f.branch, f.deviceFunction,
                 Pick(d.equipment, f.typeOfEquipment),
                 Pick(d.patrimony, f.patrimony),
                 Pick(d.tag, f.tag),
                 Pick(d.sector, f.sector),
                 Pick(d.minWorkingTemp, f.minWorkingTemp),
                 Pick(d.maxWorkingTemp, f.maxWorkingTemp),
                 Pick(d.minWorkingHumidity, f.minWorkingHumidity),
                 Pick(d.maxWorkingHumidity, f.maxWorkingHumidity),
                 Pick(d.ip, f.ip),
                 Pick(d.deviceType, f.deviceType),
                 Pick(d.sensor, f.sensor))
  }

  /** The branch step: Branch.valueOf of a non-null name, which may throw. */
  function SetBranch(f: DeviceFields, d: DeviceUpdateDTO): Result<DeviceFields, UpdateError>
  {
    if d.branch.None? then Ok(f)
    else
      match BranchValueOf(d.branch.value)
      case None => Err(InvalidBranch(d.branch.value))
      case Some(b) => Ok(f.(branch := b))
  }

  /** The function step: Function.valueOf of a non-null name, which may throw. */
  function SetFunction(f: DeviceFields, d: DeviceUpdateDTO): Result<DeviceFields, UpdateError>
  {
    if d.functionName.None? then Ok(f)
    else
      match FunctionValueOf(d.functionName.value)
      case None => Err(InvalidFunction(d.functionName.value))
      case Some(fn) => Ok(f.(deviceFunction := fn))
  }

  /** What update does to the fields: the name first, then the branch and the
      function (either of which may throw, ending the update there), then
      the rest. */
  function ApplyUpdate(f: DeviceFields, d: DeviceUpdateDTO): UpdateOutcome
  {
    var afterName := f.(name := Pick(d.name, f.name));
    match SetBranch(afterName, d)
    case Err(e) => UpdateOutcome(afterName, Some(e))
    case Ok(afterBranch) =>
      match SetFunction(afterBranch, d)
      case Err(e) => UpdateOutcome(afterBranch, Some(e))
      case Ok(afterFunction) => UpdateOutcome(ApplyPlain(afterFunction, d), None)
  }

  /** Update fails exactly when a given branch or function name is not the
      name of a constant, and the branch is checked first. */
  lemma UpdateErrorCases(f: DeviceFields, d: DeviceUpdateDTO)
    ensures var o := ApplyUpdate(f, d);
            (o.error == None <==>
               (d.branch.None? || BranchValueOf(d.branch.value).Some?)
               && (d.functionName.None? || FunctionValueOf(d.functionName.value).Some?))
            && (d.branch.Some? && BranchValueOf(d.branch.value).None? ==>
                  o.error == Some(InvalidBranch(d.branch.value)))
  {
  }

  /** Every non-null field of a request that does not throw overwrites the
      entity's field; the name is written even when the request throws. */
  lemma UpdateOverwrites(f: DeviceFields, d: DeviceUpdateDTO)
    ensures var o := ApplyUpdate(f, d);
            (d.name.Some? ==> o.fields.name == d.name.value)
            && (o.error.None? ==>
                  (d.branch.Some? ==> Some(o.fields.branch) == BranchValueOf(d.branch.value))
                  && (d.functionName.Some? ==> Some(o.fields.deviceFunction) == FunctionValueOf(d.functionName.value))
                  && (d.equipment.Some? ==> o.fields.typeOfEquipment == d.equipment.value)
                  && (d.patrimony.Some? ==> o.fields.patrimony == d.patrimony.value)
                  && (d.tag.Some? ==> o.fields.tag == d.tag.value)
                  && (d.sector.Some? ==> o.fields.sector == d.sector.value)
                  && (d.minWorkingTemp.Some? ==> o.fields.minWorkingTemp == d.minWorkingTemp.value)
                  && (d.maxWorkingTemp.Some? ==> o.fields.maxWorkingTemp == d.maxWorkingTemp.value)
                  && (d.minWorkingHumidity.Some? ==> o.fields.minWorkingHumidity == d.minWorkingHumidity.value)
                  && (d.maxWorkingHumidity.Some? ==> o.fields.maxWorkingHumidity == d.maxWorkingHumidity.value)
                  && (d.ip.Some? ==> o.fields.ip == d.ip.value)
                  && (d.deviceType.Some? ==> o.fields.deviceType == d.deviceType.value)
                  && (d.sensor.Some? ==> o.fields.sensor == d.sensor.value))
  {
  }

  /** A null field keeps the entity's value, whether or not the request throws. */
  lemma UpdateKeepsNullFields(f: DeviceFields, d: DeviceUpdateDTO)
    ensures var o := ApplyUpdate(f, d);
            (d.name.None? ==> o.fields.name == f.name)
            && (d.branch.None? ==> o.fields.branch == f.branch)
            && (d.functionName.None? ==> o.fields.deviceFunction == f.deviceFunction)
            && (d.equipment.None? ==> o.fields.typeOfEquipment == f.typeOfEquipment)
            && (d.patrimony.None? ==> o.fields.patrimony == f.patrimony)
            && (d.tag.None? ==> o.fields.tag == f.tag)
            && (d.sector.None? ==> o.fields.sector == f.sector)
            && (d.minWorkingTemp.None? ==> o.fields.minWorkingTemp == f.minWorkingTemp)
            && (d.maxWorkingTemp.None? ==> o.fields.maxWorkingTemp == f.maxWorkingTemp)
            && (d.minWorkingHumidity.None? ==> o.fields.minWorkingHumidity == f.minWorkingHumidity)
            && (d.maxWorkingHumidity.None? ==> o.fields.maxWorkingHumidity == f.maxWorkingHumidity)
            && (d.ip.None? ==> o.fields.ip == f.ip)
            && (d.deviceType.None? ==> o.fields.deviceType == f.deviceType)
            && (d.sensor.None? ==> o.fields.sensor == f.sensor)
  {
  }

  /** A request with every field null changes nothing and does not throw. */
  lemma AllNullIsNoOp(f: DeviceFields)
    ensures ApplyUpdate(f, ALL_NULL) == UpdateOutcome(f, None)
  {
  }

  /** Applying the same request twice is the same as applying it once, with
      the same exception, if any. */
  lemma UpdateIdempotent(f: DeviceFields, d: DeviceUpdateDTO)
    ensures ApplyUpdate(ApplyUpdate(f, d).fields, d) == ApplyUpdate(f, d)
  {
  }

  /** An unknown branch name leaves every field but the name untouched; an
      unknown function name (with a valid or null branch) leaves every field
      but the name and the branch untouched. */
  lemma UpdatePartialOnInvalidName(f: DeviceFields, d: DeviceUpdateDTO)
    ensures var o := ApplyUpdate(f, d);
            (o.error.Some? && o.error.value.InvalidBranch? ==>
               o.fields == f.(name := Pick(d.name, f.name)))
            && (o.error.Some? && o.error.value.InvalidFunction? ==>
                  o.fields == f.(name := Pick(d.name, f.name), branch := o.fields.branch))
  {
  }

  /** The tb_devices_by_id row: the key, API key, owner and active flag,
      which update never writes, and the descriptive fields it does. */
  class DeviceById {
    const id: nat
    const apiKey: string
    const ownerId: nat
    const isActive: bool
    var fields: DeviceFields

    constructor (id: nat, apiKey: string, ownerId: nat, isActive: bool, f: DeviceFields)
      ensures this.id == id && this.apiKey == apiKey && this.ownerId == ownerId && this.isActive == isActive
      ensures fields == f
    {
      this.id, this.apiKey, this.ownerId, this.isActive := id, apiKey, ownerId, isActive;
      fields := f;
    }

    /** update(DeviceUpdateDTO); error is the exception it throws, if any.
        Each plain field takes the request's value when it is non-null. */
    method Update(d: DeviceUpdateDTO) returns (error: Option<UpdateError>)
      modifies this
      ensures fields == ApplyUpdate(old(fields), d).fields
      ensures error == ApplyUpdate(old(fields), d).error
    {
      if d.name.Some? {
        fields := fields.(name := d.name.value);
      }
      if d.branch.Some? {
        var b := BranchValueOf(d.branch.value);
        if b.None? {
          return Some(InvalidBranch(d.branch.value));
        }
        fields := fields.(branch := b.value);
      }
      if d.functionName.Some? {
        var fn := FunctionValueOf(d.functionName.value);
        if fn.None? {
          return Some(InvalidFunction(d.functionName.value));
        }
        fields := fields.(deviceFunction := fn.value);
      }
      fields := fields.(typeOfEquipment := Pick(d.equipment, fields.typeOfEquipment));
      fields := fields.(patrimony := Pick(d.patrimony, fields.patrimony));
      fields := fields.(tag := Pick(d.tag, fields.tag));
      fields := fields.(sector := Pick(d.sector, fields.sector));
      fields := fields.(minWorkingTemp := Pick(d.minWorkingTemp, fields.minWorkingTemp));
      fields := fields.(maxWorkingTemp := Pick(d.maxWorkingTemp, fields.maxWorkingTemp));
      fields := fields.(minWorkingHumidity := Pick(d.minWorkingHumidity, fields.minWorkingHumidity));
      fields := fields.(maxWorkingHumidity := Pick(d.maxWorkingHumidity, fields.maxWorkingHumidity));
      fields := fields.(ip := Pick(d.ip, fields.ip));
      fields := fields.(deviceType := Pick(d.deviceType, fields.deviceType));
      fields := fields.(sensor := Pick(d.sensor, fields.sensor));
      error := None;
    }
  }

  /** The tb_devices_by_user_id row, keyed by (owner, device). */
  class DeviceByUserId {
    const ownerId: nat
    const deviceId: nat
    const apiKey: string
    const isActive: bool
    var fields: DeviceFields

    constructor (ownerId: nat, deviceId: nat, apiKey: string, isActive: bool, f: DeviceFields)
      ensures this.ownerId == ownerId && this.deviceId == deviceId
      ensures this.apiKey == apiKey && this.isActive == isActive
      ensures fields == f
    {
      this.ownerId, this.deviceId, this.apiKey, this.isActive := ownerId, deviceId, apiKey, isActive;
      fields := f;
    }

    /** update(DeviceUpdateDTO), step for step as DeviceById.update. */
    method Update(d: DeviceUpdateDTO) returns (error: Option<UpdateError>)
      modifies this
      ensures fields == ApplyUpdate(old(fields), d).fields
      ensures error == ApplyUpdate(old(fields), d).error
    {
      if d.name.Some? {
        fields := fields.(name := d.name.value);
      }
      if d.branch.Some? {
        var b := BranchValueOf(d.branch.value);
        if b.None? {
          return Some(InvalidBranch(d.branch.value));
        }
        fields := fields.(branch := b.value);
      }
      if d.functionName.Some? {
        var fn := FunctionValueOf(d.functionName.value);
        if fn.None? {
          return Some(InvalidFunction(d.functionName.value));
        }
        fields := fields.(deviceFunction := fn.value);
      }
      fields := fields.(typeOfEquipment := Pick(d.equipment, fields.typeOfEquipment));
      fields := fields.(patrimony := Pick(d.patrimony, fields.patrimony));
      fields := fields.(tag := Pick(d.tag, fields.tag));
      fields := fields.(sector := Pick(d.sector, fields.sector));
      fields := fields.(minWorkingTemp := Pick(d.minWorkingTemp, fields.minWorkingTemp));
      fields := fields.(maxWorkingTemp := Pick(d.maxWorkingTemp, fields.maxWorkingTemp));
      fields := fields.(minWorkingHumidity := Pick(d.minWorkingHumidity, fields.minWorkingHumidity));
      fields := fields.(maxWorkingHumidity := Pick(d.maxWorkingHumidity, fields.maxWorkingHumidity));
      fields := fields.(ip := Pick(d.ip, fields.ip));
      fields := fields.(deviceType := Pick(d.deviceType, fields.deviceType));
      fields := fields.(sensor := Pick(d.sensor, fields.sensor));
      error := None;
    }
  }

  /** Both projections applying the same request: rows whose descriptive
      fields agree before still agree after, and throw the same exception. */
  method UpdateBoth(byId: DeviceById, byUser: DeviceByUserId, d: DeviceUpdateDTO)
    returns (e1: Option<UpdateError>, e2: Option<UpdateError>)
    requires byId.fields == byUser.fields
    modifies byId, byUser
    ensures byId.fields == byUser.fields == ApplyUpdate(old(byId.fields), d).fields
    ensures e1 == e2
  {
    e1 := byId.Update(d);
    e2 := byUser.Update(d);
  }
}
