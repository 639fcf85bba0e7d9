/**
 * The records the Charge-Amps cloud API exchanges (chargeamps/models.py).
 * Frozen dataclasses become datatypes; the two settings records, which the
 * command-line tool edits in place before sending them back, become classes.
 * Floating-point fields are `real`; date-time fields hold their ISO-8601 text.
 */
module Models {
  import opened Wrappers

  datatype ChargePointConnector = ChargePointConnector(
    chargePointId: string,
    connectorId: int,
    connectorType: string)

  datatype ChargePoint = ChargePoint(
    id: string,
    name: string,
    password: string,
    chargePointType: string,
    isLoadbalanced: bool,
    firmwareVersion: string,
    hardwareVersion: string,
    connectors: seq<ChargePointConnector>)

  datatype ChargePointMeasurement = ChargePointMeasurement(phase: string, current: real, voltage: real)

  datatype ChargePointConnectorStatus = ChargePointConnectorStatus(
    chargePointId: string,
    connectorId: int,
    totalConsumptionKwh: real,
    status: string,
    measurements: Option<seq<ChargePointMeasurement>>,
    startTime: Option<string>,
    endTime: Option<string>,
    sessionId: Option<string>)

  datatype ChargePointStatus = ChargePointStatus(
    id: string,
    status: string,
    connectorStatuses: seq<ChargePointConnectorStatus>)

  datatype ChargingSession = ChargingSession(
    id: string,
    chargePointId: string,
    connectorId: int,
    sessionType: string,
    totalConsumptionKwh: real,
    startTime: Option<string>,
    endTime: Option<string>)

  datatype StartAuth = StartAuth(
    rfidLength: int,
    rfidFormat: string,
    rfid: string,
    externalTransactionId: string)

  /** Charge point settings (a mutable dataclass in the source). */
  class ChargePointSettings {
    var id: string
    var dimmer: string
    var downLight: bool

    constructor (id: string, dimmer: string, downLight: bool)
      ensures this.id == id && this.dimmer == dimmer && this.downLight == downLight
    {
      this.id := id;
      this.dimmer := dimmer;
      this.downLight := downLight;
    }
  }

  /** Connector settings (a mutable dataclass in the source). */
  class ChargePointConnectorSettings {
    var chargePointId: string
    var connectorId: int
    var mode: string
    var rfidLock: bool
    var cableLock: bool
    var maxCurrent: Option<real>

    constructor (chargePointId: string, connectorId: int, mode: string,
                 rfidLock: bool, cableLock: bool, maxCurrent: Option<real>)
      ensures this.chargePointId == chargePointId && this.connectorId == connectorId
      ensures this.mode == mode && this.rfidLock == rfidLock && this.cableLock == cableLock
      ensures this.maxCurrent == maxCurrent
    {
      this.chargePointId := chargePointId;
      this.connectorId := connectorId;
      this.mode := mode;
      this.rfidLock := rfidLock;
      this.cableLock := cableLock;
      this.maxCurrent := maxCurrent;
    }
  }
}
