/** Concrete bus scripts run through the driver routines, showing what callers
    can conclude from the routines' contracts alone. */
module Scenarios {
  import opened McpTypes
  import opened Registers
  import opened Transport
  import opened Driver

  /** A register holding -1/16 degree (0xFF 0xFF) reads as -1 degree, the
      fraction being rounded down; with a failed read the same bytes give 0. */
  method NegativeTemperature() returns (ok: int, failed: int)
    ensures ok == -1 && failed == 0
  {
    var bus := new I2CBus([Success, Success], [Reply(Success, [0xFF, 0xFF]), Reply(Failure, [0xFF, 0xFF])]);
    ok := ReadThermocoupleTemp(bus);
    failed := ReadThermocoupleTemp(bus);
  }

  /** A valid alert-config write that the bus acknowledges is reported as
      FAILURE, and a write the bus rejects is reported as SUCCESS when the
      following read happens to return the value. */
  method AlertConfigInverted() returns (acked: Status, rejected: Status)
    ensures acked == Failure && rejected == Success
  {
    var bus := new I2CBus([Success], [Reply(Success, [0x42])]);
    acked := SetAlertConfig(bus, ALERT1_CFG_REG_ADDR, 0x42);
    assert bus.requested == [];
    var bus' := new I2CBus([Failure], [Reply(Success, [0x42])]);
    rejected := SetAlertConfig(bus', ALERT1_CFG_REG_ADDR, 0x42);
  }

  /** Alert-limit writes of 0x0142 and 0x0042 put the same bytes on the bus. */
  method AlertLimitDropsHighByte() returns (sent: seq<seq<byte>>, sent': seq<seq<byte>>)
    ensures sent == sent' == [[TEMP_ALERT1_LIMIT_REG_ADDR, 0x42]]
  {
    var bus := new I2CBus([Success], []);
    var _ := SetAlertLimit(bus, TEMP_ALERT1_LIMIT_REG_ADDR, 0x0142, 0);
    sent := bus.transmitted;
    var bus' := new I2CBus([Success], []);
    var _ := SetAlertLimit(bus', TEMP_ALERT1_LIMIT_REG_ADDR, 0x0042, 0);
    sent' := bus'.transmitted;
  }

  /** An address outside the hysteresis category is refused before any bus
      traffic, even when it agrees with a hysteresis address in its low byte. */
  method HysteresisWideAddressRefused() returns (status: Status, sent: seq<seq<byte>>)
    ensures status == Failure && sent == []
  {
    var bus := new I2CBus([Success], [Reply(Success, [0x07])]);
    status := SetAlertHysteresis(bus, 0x010C, 0x07);
    sent := bus.transmitted;
  }
}
