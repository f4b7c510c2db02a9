/** The two document-store records the device channel reads and writes,
    with the field names of the machine and machine-operation schemas. */
module Models {
  import opened Js

  /** Timestamps are ISO-8601 texts supplied by the caller (the clock is an input). */
  type Time = string

  /** A document identifier; the store keeps identifiers unique. */
  type MachineId = string

  const Online: string := "ONLINE"
  const Offline: string := "OFFLINE"
  const UnknownLocation: string := "Unknown"

  /** A machine record. `simNumber` is "" when the record has none on file;
      several records may share one SIM number. */
  datatype Machine = Machine(
    id: MachineId,
    machineName: string,
    simNumber: string,
    username: string,
    remarks: string,
    status: string,
    sensorStatus: string,
    location: string,
    serverConnection: string,
    lastStatusUpdate: Option<Time>,
    directoryNumbers: seq<string>,
    phoneBook: seq<string>)

  /** A new machine record with the schema's defaults. */
  function NewMachine(id: MachineId, machineName: string, simNumber: string, username: string, remarks: string): (m: Machine)
    ensures m.id == id && m.simNumber == simNumber
    ensures m.status == Offline && m.serverConnection == Offline
    ensures m.sensorStatus == "None" && m.location == "None"
    ensures m.lastStatusUpdate == None && m.phoneBook == [] && m.directoryNumbers == []
  {
    Machine(id, machineName, simNumber, username, remarks, Offline, "None", "None", Offline, None, [], [])
  }

  /** One entry of the append-only operation log. */
  datatype Operation = Operation(
    machineId: MachineId,
    dateTime: Time,
    fuelConsumption: real,
    pressure: real,
    processTime: int,
    location: string)
}
