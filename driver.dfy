/** The register-access layer of the MCP9600 driver. Every public routine of
    the C driver is a method here that takes the bus explicitly (the C code
    uses one fixed bus instance) and performs the same sequence of bus calls:
    an optional address check, one transmit of the register pointer (or of the
    pointer and a payload), at most one receive, and a comparison or a decode.
    What each routine returns is specified by a pure function of the statuses
    and bytes the bus answers with; those functions carry the outcome
    properties, and each method's contract also fixes its exact bus traffic. */
module Driver {
  import opened McpTypes
  import opened Registers
  import opened Decode
  import opened Transport

  // ---------------------------------------------------------------------------
  // Outcomes as functions of the bus's answers
  // ---------------------------------------------------------------------------

  /** The value of a temperature read, given the status of the pointer write
      and the reply to the 2-byte read: the decoded temperature when both
      succeed, the default 0 otherwise. */
  function TempReadResult(pointer: Status, reply: Reply): (t: int)
    ensures -2048 <= t <= 2047
    ensures t != 0 ==> pointer == Success && reply.status == Success
    ensures pointer == Success && reply.status == Success ==>
              t == Signed16(Received(reply.data, 2)[0], Received(reply.data, 2)[1]) / 16
  {
    if pointer == Success && reply.status == Success then
      var d := Received(reply.data, 2);
      DecodeTempFloorsSixteenths(d[0], d[1]);
      DecodeTemp(d[0], d[1])
    else 0
  }

  /** The value of an ADC read, given the status of the pointer write and the
      reply to the 3-byte read. */
  function AdcReadResult(pointer: Status, reply: Reply): (v: int)
    ensures -0x8000_0000 <= v < 0x8000_0000 && v % 256 == 0
    ensures v != 0 ==> pointer == Success && reply.status == Success
    ensures pointer == Success && reply.status == Success ==>
              var d := Received(reply.data, 3); v == 256 * Signed24(d[0], d[1], d[2])
  {
    if pointer == Success && reply.status == Success then
      var d := Received(reply.data, 3);
      AdcReading(d[0], d[1], d[2])
    else 0
  }

  /** The value of a one-byte register read: 0 when the pointer write fails,
      otherwise the byte received, whatever the receive's status. */
  function ByteReadResult(pointer: Status, reply: Reply): (b: byte)
    ensures pointer == Failure ==> b == 0
    ensures pointer == Success ==> b == Received(reply.data, 1)[0]
  {
    if pointer == Success then Received(reply.data, 1)[0] else 0
  }

  /** The read status plays no part in a one-byte register read. */
  lemma ByteReadIgnoresReceiveStatus(pointer: Status, data: seq<byte>, s: Status, s': Status)
    ensures ByteReadResult(pointer, Reply(s, data)) == ByteReadResult(pointer, Reply(s', data))
  {
  }

  /** The outcome of a write verified by a 1-byte read-back (sensor config,
      device config, alert hysteresis once its address is accepted). */
  function VerifiedWriteOutcome(write: Status, reply: Reply, value: byte): (s: Status)
    ensures s == Success <==>
              write == Success && reply.status == Success && Received(reply.data, 1)[0] == value
  {
    if write == Success then
      if reply.status != Success then Failure
      else if value != Received(reply.data, 1)[0] then Failure
      else Success
    else Failure
  }

  /** The outcome of the alert-config write once its address is accepted. The
      branch on the write status is inverted with respect to the other set
      routines: the read-back is compared only after a FAILED write. */
  function AlertCfgOutcome(write: Status, reply: Reply, value: byte): (s: Status)
    ensures write == Success ==> s == Failure
    ensures s == Success <==>
              write == Failure && reply.status == Success && Received(reply.data, 1)[0] == value
  {
    if write == Failure then
      if reply.status != Success then Failure
      else if value != Received(reply.data, 1)[0] then Failure
      else Success
    else Failure
  }

  /** The outcome of the alert-limit write once its address is accepted: the
      status of the 2-byte read-back is ignored, its first byte is compared with
      the low byte that was sent and its second byte with `stray`, the byte
      that lies in memory just past the 2-byte transmit buffer. */
  function AlertLimitOutcome(write: Status, reply: Reply, low: byte, stray: byte): (s: Status)
    ensures s == Success <==>
              write == Success && Received(reply.data, 2)[0] == low && Received(reply.data, 2)[1] == stray
  {
    if write == Success then
      var d := Received(reply.data, 2);
      if low != d[0] || stray != d[1] then Failure else Success
    else Failure
  }

  /** Whatever the bus answers, some content of the stray byte makes a
      successful alert-limit write report FAILURE: the second byte of the
      register is never what the comparison is checked against. */
  lemma AlertLimitStrayDecides(reply: Reply, low: byte)
    requires Received(reply.data, 2)[0] == low
    ensures AlertLimitOutcome(Success, reply, low, Received(reply.data, 2)[1]) == Success
    ensures AlertLimitOutcome(Success, reply, low, Received(reply.data, 2)[1] + 1) == Failure
  {
    var d := Received(reply.data, 2);
    assert d[1] != d[1] + 1;
  }

  // ---------------------------------------------------------------------------
  // Register-pointer helpers (setRegPtrRd, setRegPtrWr)
  // ---------------------------------------------------------------------------

  /** Selects register `addr` for a following read. */
  method SetRegPtrRd(bus: I2CBus, addr: byte) returns (status: Status)
    modifies bus
    ensures bus.transmitted == old(bus.transmitted) + [[addr]]
    ensures bus.requested == old(bus.requested)
    ensures status == old(bus.NextTransmit())
  {
    status := bus.Transmit([addr]);
  }

  /** Sends a register address followed by the data for that register. */
  method SetRegPtrWr(bus: I2CBus, regData: seq<byte>) returns (status: Status)
    modifies bus
    ensures bus.transmitted == old(bus.transmitted) + [regData]
    ensures bus.requested == old(bus.requested)
    ensures status == old(bus.NextTransmit())
  {
    status := bus.Transmit(regData);
  }

  // ---------------------------------------------------------------------------
  // Shared shapes
  // ---------------------------------------------------------------------------

  /** Reads a two-byte temperature register: pointer write, 2-byte read,
      decode; 0 if either bus step fails. */
  method ReadTempRegister(bus: I2CBus, addr: byte) returns (temp: int)
    modifies bus
    ensures bus.transmitted == old(bus.transmitted) + [[addr]]
    ensures bus.requested ==
              old(bus.requested) + (if old(bus.NextTransmit()) == Success then [2] else [])
    ensures temp == TempReadResult(old(bus.NextTransmit()), old(bus.NextReply()))
  {
    temp := 0;
    var pointer := SetRegPtrRd(bus, addr);
    if pointer == Success {
      var received, buff := bus.Receive(2);
      if received == Success {
        temp := DecodeTemp(buff[0], buff[1]);
      }
    }
  }

  /** Reads a one-byte register: pointer write, then a 1-byte read whose
      status is not looked at; 0 if the pointer write fails. */
  method ReadByteRegister(bus: I2CBus, addr: byte) returns (value: byte)
    modifies bus
    ensures bus.transmitted == old(bus.transmitted) + [[addr]]
    ensures bus.requested ==
              old(bus.requested) + (if old(bus.NextTransmit()) == Success then [1] else [])
    ensures value == ByteReadResult(old(bus.NextTransmit()), old(bus.NextReply()))
  {
    value := 0;
    var pointer := SetRegPtrRd(bus, addr);
    if pointer == Success {
      var _, buff := bus.Receive(1);
      value := buff[0];
    }
  }

  /** Writes `[addr, value]` and verifies it with a 1-byte read-back. */
  method WriteByteVerified(bus: I2CBus, addr: byte, value: byte) returns (status: Status)
    modifies bus
    ensures bus.transmitted == old(bus.transmitted) + [[addr, value]]
    ensures bus.requested ==
              old(bus.requested) + (if old(bus.NextTransmit()) == Success then [1] else [])
    ensures status == VerifiedWriteOutcome(old(bus.NextTransmit()), old(bus.NextReply()), value)
  {
    status := Success;
    var written := SetRegPtrWr(bus, [addr, value]);
    if written == Success {
      var received, readback := bus.Receive(1);
      if received != Success {
        status := Failure;
      } else if value != readback[0] {
        status := Failure;
      }
    } else {
      status := Failure;
    }
  }

  // ---------------------------------------------------------------------------
  // Public routines
  // ---------------------------------------------------------------------------

  /** MCP_Read_ThermoCoup_Temp: the thermocouple (hot-junction) temperature. */
  method ReadThermocoupleTemp(bus: I2CBus) returns (temp: int)
    modifies bus
    ensures bus.transmitted == old(bus.transmitted) + [[TH_TEMP_REG_ADDR]]
    ensures bus.requested ==
              old(bus.requested) + (if old(bus.NextTransmit()) == Success then [2] else [])
    ensures temp == TempReadResult(old(bus.NextTransmit()), old(bus.NextReply()))
  {
    temp := ReadTempRegister(bus, TH_TEMP_REG_ADDR);
  }

  /** MCP_Read_ThermoCoupJunc_Temp: the junction temperature delta. */
  method ReadJunctionTemp(bus: I2CBus) returns (temp: int)
    modifies bus
    ensures bus.transmitted == old(bus.transmitted) + [[JD_TEMP_REG_ADDR]]
    ensures bus.requested ==
              old(bus.requested) + (if old(bus.NextTransmit()) == Success then [2] else [])
    ensures temp == TempReadResult(old(bus.NextTransmit()), old(bus.NextReply()))
  {
    temp := ReadTempRegister(bus, JD_TEMP_REG_ADDR);
  }

  /** MCP_Read_ColdJunc_Temp: the cold-junction temperature. */
  method ReadColdJunctionTemp(bus: I2CBus) returns (temp: int)
    modifies bus
    ensures bus.transmitted == old(bus.transmitted) + [[CD_TEMP_REG_ADDR]]
    ensures bus.requested ==
              old(bus.requested) + (if old(bus.NextTransmit()) == Success then [2] else [])
    ensures temp == TempReadResult(old(bus.NextTransmit()), old(bus.NextReply()))
  {
    temp := ReadTempRegister(bus, CD_TEMP_REG_ADDR);
  }

  /** MCP_Read_ADC: the raw ADC register, assembled into bits 31..8. */
  method ReadAdc(bus: I2CBus) returns (adcVal: int)
    modifies bus
    ensures bus.transmitted == old(bus.transmitted) + [[RAW_ADC_DATA_REG_ADDR]]
    ensures bus.requested ==
              old(bus.requested) + (if old(bus.NextTransmit()) == Success then [3] else [])
    ensures adcVal == AdcReadResult(old(bus.NextTransmit()), old(bus.NextReply()))
  {
    adcVal := 0;
    var pointer := SetRegPtrRd(bus, RAW_ADC_DATA_REG_ADDR);
    if pointer == Success {
      var received, buff := bus.Receive(3);
      if received == Success {
        adcVal := AdcReading(buff[0], buff[1], buff[2]);
      }
    }
  }

  /** MCP_Read_Status_Reg. */
  method ReadStatusReg(bus: I2CBus) returns (statusReg: byte)
    modifies bus
    ensures bus.transmitted == old(bus.transmitted) + [[STAT_REG_ADDR]]
    ensures bus.requested ==
              old(bus.requested) + (if old(bus.NextTransmit()) == Success then [1] else [])
    ensures statusReg == ByteReadResult(old(bus.NextTransmit()), old(bus.NextReply()))
  {
    statusReg := ReadByteRegister(bus, STAT_REG_ADDR);
  }

  /** MCP_Read_Sens_Cfg. */
  method ReadSensorConfig(bus: I2CBus) returns (sensCfgReg: byte)
    modifies bus
    ensures bus.transmitted == old(bus.transmitted) + [[TH_SENS_CFG_REG_ADDR]]
    ensures bus.requested ==
              old(bus.requested) + (if old(bus.NextTransmit()) == Success then [1] else [])
    ensures sensCfgReg == ByteReadResult(old(bus.NextTransmit()), old(bus.NextReply()))
  {
    sensCfgReg := ReadByteRegister(bus, TH_SENS_CFG_REG_ADDR);
  }

  /** MCP_Set_Sens_Cfg: no address check; SUCCESS exactly when the write and
      the read-back succeed and the byte read back is the one written. */
  method SetSensorConfig(bus: I2CBus, sensorCfg: byte) returns (status: Status)
    modifies bus
    ensures bus.transmitted == old(bus.transmitted) + [[TH_SENS_CFG_REG_ADDR, sensorCfg]]
    ensures bus.requested ==
              old(bus.requested) + (if old(bus.NextTransmit()) == Success then [1] else [])
    ensures status == Success <==>
              old(bus.NextTransmit()) == Success && old(bus.NextReply()).status == Success
              && old(bus.Incoming(1))[0] == sensorCfg
  {
    status := WriteByteVerified(bus, TH_SENS_CFG_REG_ADDR, sensorCfg);
  }

  /** MCP_Read_DevCfg_Reg. */
  method ReadDeviceConfig(bus: I2CBus) returns (devCfgReg: byte)
    modifies bus
    ensures bus.transmitted == old(bus.transmitted) + [[DEVICE_CFG_REG_ADDR]]
    ensures bus.requested ==
              old(bus.requested) + (if old(bus.NextTransmit()) == Success then [1] else [])
    ensures devCfgReg == ByteReadResult(old(bus.NextTransmit()), old(bus.NextReply()))
  {
    devCfgReg := ReadByteRegister(bus, DEVICE_CFG_REG_ADDR);
  }

  /** MCP_Set_DevCfg_Reg: the same shape as the sensor-config write. */
  method SetDeviceConfig(bus: I2CBus, devCfg: byte) returns (status: Status)
    modifies bus
    ensures bus.transmitted == old(bus.transmitted) + [[DEVICE_CFG_REG_ADDR, devCfg]]
    ensures bus.requested ==
              old(bus.requested) + (if old(bus.NextTransmit()) == Success then [1] else [])
    ensures status == Success <==>
              old(bus.NextTransmit()) == Success && old(bus.NextReply()).status == Success
              && old(bus.Incoming(1))[0] == devCfg
  {
    status := WriteByteVerified(bus, DEVICE_CFG_REG_ADDR, devCfg);
  }

  /** MCP_Read_AlertLimit_Reg: a temperature read of whatever address it is
      given; this routine performs no address check. */
  method ReadAlertLimit(bus: I2CBus, alertRegAddr: byte) returns (temp: int)
    modifies bus
    ensures bus.transmitted == old(bus.transmitted) + [[alertRegAddr]]
    ensures bus.requested ==
              old(bus.requested) + (if old(bus.NextTransmit()) == Success then [2] else [])
    ensures temp == TempReadResult(old(bus.NextTransmit()), old(bus.NextReply()))
  {
    temp := ReadTempRegister(bus, alertRegAddr);
  }

  /** MCP_Set_AlertLimit_Reg: only the low byte of `val` is sent; the 2-byte
      read-back's status is ignored, and its second byte is compared with
      `stray`, the byte just past the 2-byte transmit buffer. */
  method SetAlertLimit(bus: I2CBus, alertRegAddr: byte, val: bv16, stray: byte)
    returns (status: Status)
    modifies bus
    ensures !IsAlertLimitAddr(alertRegAddr) ==>
              status == Failure && bus.transmitted == old(bus.transmitted)
              && bus.requested == old(bus.requested)
    ensures IsAlertLimitAddr(alertRegAddr) ==>
              && bus.transmitted == old(bus.transmitted) + [[alertRegAddr, (val & 0xFF) as byte]]
              && bus.requested ==
                   old(bus.requested) + (if old(bus.NextTransmit()) == Success then [2] else [])
              && status == AlertLimitOutcome(old(bus.NextTransmit()), old(bus.NextReply()),
                                             (val & 0xFF) as byte, stray)
  {
    status := Success;
    if IsAlertLimitAddr(alertRegAddr) {
      var buff := [alertRegAddr, (val & 0xFF) as byte];
      var written := SetRegPtrWr(bus, buff);
      if written == Success {
        var _, buff2 := bus.Receive(2);
        if buff[1] != buff2[0] || stray != buff2[1] {
          status := Failure;
        }
      } else {
        status := Failure;
      }
    } else {
      status := Failure;
    }
  }

  /** MCP_Read_AlertHys_Reg: 0 and no bus traffic for an address outside the
      hysteresis category. */
  method ReadAlertHysteresis(bus: I2CBus, alertHysRegAddr: byte) returns (alertHysReg: byte)
    modifies bus
    ensures !IsAlertHysAddr(alertHysRegAddr) ==>
              alertHysReg == 0 && bus.transmitted == old(bus.transmitted)
              && bus.requested == old(bus.requested)
    ensures IsAlertHysAddr(alertHysRegAddr) ==>
              && bus.transmitted == old(bus.transmitted) + [[alertHysRegAddr]]
              && bus.requested ==
                   old(bus.requested) + (if old(bus.NextTransmit()) == Success then [1] else [])
              && alertHysReg == ByteReadResult(old(bus.NextTransmit()), old(bus.NextReply()))
  {
    alertHysReg := 0;
    if IsAlertHysAddr(alertHysRegAddr) {
      alertHysReg := ReadByteRegister(bus, alertHysRegAddr);
    }
  }

  /** MCP_Set_AlertHys_Reg: the address argument is 16 bits wide; it is checked
      on all 16 bits and sent as its low byte. */
  method SetAlertHysteresis(bus: I2CBus, alertHysAddr: bv16, alertHysVal: byte)
    returns (status: Status)
    modifies bus
    ensures !IsAlertHysWord(alertHysAddr) ==>
              status == Failure && bus.transmitted == old(bus.transmitted)
              && bus.requested == old(bus.requested)
    ensures IsAlertHysWord(alertHysAddr) ==>
              && bus.transmitted ==
                   old(bus.transmitted) + [[(alertHysAddr & 0xFF) as byte, alertHysVal]]
              && bus.requested ==
                   old(bus.requested) + (if old(bus.NextTransmit()) == Success then [1] else [])
              && status == VerifiedWriteOutcome(old(bus.NextTransmit()), old(bus.NextReply()),
                                                alertHysVal)
  {
    if IsAlertHysWord(alertHysAddr) {
      status := WriteByteVerified(bus, (alertHysAddr & 0xFF) as byte, alertHysVal);
    } else {
      status := Failure;
    }
  }

  /** MCP_Read_AlertCfg_Reg: 0 and no bus traffic for an address outside the
      alert-config category. */
  method ReadAlertConfig(bus: I2CBus, alertCfgAddr: byte) returns (alertCfgReg: byte)
    modifies bus
    ensures !IsAlertCfgAddr(alertCfgAddr) ==>
              alertCfgReg == 0 && bus.transmitted == old(bus.transmitted)
              && bus.requested == old(bus.requested)
    ensures IsAlertCfgAddr(alertCfgAddr) ==>
              && bus.transmitted == old(bus.transmitted) + [[alertCfgAddr]]
              && bus.requested ==
                   old(bus.requested) + (if old(bus.NextTransmit()) == Success then [1] else [])
              && alertCfgReg == ByteReadResult(old(bus.NextTransmit()), old(bus.NextReply()))
  {
    alertCfgReg := 0;
    if IsAlertCfgAddr(alertCfgAddr) {
      alertCfgReg := ReadByteRegister(bus, alertCfgAddr);
    }
  }

  /** MCP_Set_AlertCfg_Reg, with its inverted branch: a successful write is
      reported as FAILURE without a read-back, and the read-back runs only
      after a failed write. */
  method SetAlertConfig(bus: I2CBus, alertCfgAddr: byte, alertCfgVal: byte)
    returns (status: Status)
    modifies bus
    ensures !IsAlertCfgAddr(alertCfgAddr) ==>
              status == Failure && bus.transmitted == old(bus.transmitted)
              && bus.requested == old(bus.requested)
    ensures IsAlertCfgAddr(alertCfgAddr) ==>
              && bus.transmitted == old(bus.transmitted) + [[alertCfgAddr, alertCfgVal]]
              && bus.requested ==
                   old(bus.requested) + (if old(bus.NextTransmit()) == Success then [] else [1])
              && status == AlertCfgOutcome(old(bus.NextTransmit()), old(bus.NextReply()),
                                           alertCfgVal)
  {
    status := Success;
    if IsAlertCfgAddr(alertCfgAddr) {
      var buff := [alertCfgAddr, alertCfgVal];
      var written := SetRegPtrWr(bus, buff);
      if written != Success {
        var received, readback := bus.Receive(1);
        if received != Success {
          status := Failure;
        } else if buff[1] != readback[0] {
          status := Failure;
        }
      } else {
        status := Failure;
      }
    } else {
      status := Failure;
    }
  }

  /** MCP_Read_DevID_Reg: the two raw bytes of the device-ID register, in the
      order received ([0, 0] if the pointer write fails; the read's status is
      not looked at). */
  method ReadDeviceId(bus: I2CBus) returns (devId: seq<byte>)
    modifies bus
    ensures bus.transmitted == old(bus.transmitted) + [[DEVICE_ID_REG_ADDR]]
    ensures bus.requested ==
              old(bus.requested) + (if old(bus.NextTransmit()) == Success then [2] else [])
    ensures devId == if old(bus.NextTransmit()) == Success then old(bus.Incoming(2)) else [0, 0]
  {
    devId := [0, 0];
    var pointer := SetRegPtrRd(bus, DEVICE_ID_REG_ADDR);
    if pointer == Success {
      var _, buff := bus.Receive(2);
      devId := buff;
    }
  }
}
