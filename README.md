# MCP9600 register-access layer in Dafny

A model of the MCP9600 thermocouple-converter driver: the register map of
`Inc/MCP9600.h` and every routine of `Src/MCP9600.c`. Each driver routine
writes a one-byte register pointer over I2C, or the pointer followed by a
payload. It then reads back one, two or three bytes and either decodes them
or compares them with what it wrote.

Modules, one per part of the driver:

- `McpTypes`: the byte type (`bv8`, for `uint8_t`) and `Status`, which mirrors
  the two-valued `t_MCP_Status`.
- `Registers`: the twenty register-pointer constants and the three alert
  address categories (config, hysteresis, limit). Each category is a predicate
  written as the same equality chain the driver uses.
- `Transport`: the class `I2CBus`, a scripted stand-in for `I2C_Write` and
  `I2C_Read`. It answers successive transmits and receives from two fixed
  scripts. It logs every transmitted buffer (`transmitted`) and every
  requested receive length (`requested`). A receive delivers its scripted
  bytes whatever its status. This stands for the buffer contents after a
  failed read, which the driver does not control.
- `Decode`: the two pure decode blocks. `DecodeTemp` is the temperature
  conversion that the driver writes out four times. `AdcReading` is the ADC
  word assembly, including its sign-extension test.
- `Driver`: one method per public routine, plus `SetRegPtrRd` and
  `SetRegPtrWr`. Each method takes the bus as a parameter, where the C code
  uses a fixed bus instance. Each method's contract fixes its bus traffic
  exactly. It ties the returned value to a pure outcome function of what the
  bus answered (`TempReadResult`, `AdcReadResult`, `ByteReadResult`,
  `VerifiedWriteOutcome`, `AlertCfgOutcome`, `AlertLimitOutcome`). The
  properties of those functions are proved.
- `Scenarios`: concrete bus scripts run through the routines.

The model follows the code as written, including three defects:

- `MCP_Set_AlertCfg_Reg` inverts its write-status test (Src/MCP9600.c:380). A
  valid write that the bus acknowledges is always reported as FAILURE. The
  read-back runs only after a failed write.
- `MCP_Set_AlertLimit_Reg` sends only the low byte of its 16-bit value. It
  ignores the read-back's status. It compares the second read-back byte with
  `buff[2]`, which lies past the end of the 2-byte buffer. The model makes
  that byte an explicit parameter `stray`.
- In `MCP_Read_ADC`, the sign-extension test `buff[0] & 0x800000` is always
  false, because `buff[0]` is a byte.

Where the code departs from what the driver is meant to do, the model follows the code:

- The register format has a resolution of 1/16 degree. The
  code's integer division `buff[1]/16` rounds the register's value down to a
  whole degree. This is `DecodeTempFloorsSixteenths` and `DecodeRegisterBytes`.
- A signed 24-bit ADC reading would be shifted back down after sign extension. The code returns
  the word with the 24-bit value in bits 31..8. That is 256 times the signed
  24-bit reading. This is `AdcReading`.
- A set routine is meant to report success only after a matching read-back of
  a successful write. That is not so for `MCP_Set_AlertCfg_Reg` or
  `MCP_Set_AlertLimit_Reg`.

## Model

| member | source | states |
|---|---|---|
| `Registers.IsAlertCfgAddr` | Inc/MCP9600.h:22-25 | the alert-config equality chain accepts exactly the addresses 0x08..0x0B |
| `Registers.IsAlertHysAddr` | Inc/MCP9600.h:26-29 | the alert-hysteresis equality chain accepts exactly 0x0C..0x0F |
| `Registers.IsAlertHysWord` | Src/MCP9600.c:319 | the same chain on the 16-bit address argument of the hysteresis setter accepts exactly 0x000C..0x000F, so a non-zero high byte is refused |
| `Registers.IsAlertLimitAddr` | Inc/MCP9600.h:30-33 | the alert-limit equality chain accepts exactly 0x10..0x13 |
| `Registers.RegisterAddressesDistinct` | Inc/MCP9600.h:15-34 | the twenty register addresses are bytes and pairwise distinct |
| `Registers.AlertCategoriesDisjoint` | Inc/MCP9600.h:20-34 | the three alert categories are pairwise disjoint and contain neither 0x05, 0x06 nor 0x20 |
| `Transport.I2CBus.Transmit` | Src/MCP9600_cfg.c:18-26 | a transmit appends its buffer to the log and returns the next scripted status |
| `Transport.I2CBus.Receive` | Src/MCP9600_cfg.c:35-43 | a receive logs its length and returns the next scripted status and exactly n scripted bytes |
| `Decode.DecodeTemp` | Src/MCP9600.c:32-38 | the decoded temperature lies in [-2048, 2047] and is negative exactly when bit 7 of the upper byte is set |
| `Decode.DecodeTempFloorsSixteenths` | Src/MCP9600.c:32-38 | the decode equals the register's 16-bit two's-complement count of 1/16 degree, rounded down to a whole degree |
| `Decode.DecodeTempIgnoresLowNibble` | Src/MCP9600.c:34-37 | two lower bytes with the same high nibble decode to the same temperature |
| `Decode.RegisterBytesRoundTrip` | Src/MCP9600.c:32-38 | encoding a signed count of sixteenths into two register bytes and reading the bytes back as a signed count gives the count back |
| `Decode.Signed16RoundTrip` | Src/MCP9600.c:32-38 | every pair of register bytes is the encoding of its own signed count |
| `Decode.DecodeRegisterBytes` | Src/MCP9600.c:32-38 | a register holding q sixteenths decodes to q/16 rounded down, so the fraction is lost |
| `Decode.WholeDegreesRoundTrip` | Src/MCP9600.c:32-38 | a whole-degree temperature in [-2048, 2047], written in the register format, decodes to itself |
| `Decode.AdcWordLayout` | Src/MCP9600.c:112 | the assembled 32-bit word carries the three ADC bytes in bits 31..8, its low 8 bits are zero, and its sign bit is bit 7 of the first byte |
| `Decode.SignExtensionTestDead` | Src/MCP9600.c:113-116 | `buff[0] & 0x800000` is always 0, so the OR with 0xFF000000 is never reached |
| `Decode.AdcWordValue` | Src/MCP9600.c:112 | the word read as int32 two's complement is 256 times the signed 24-bit big-endian value |
| `Decode.Signed24Range` | Src/MCP9600.c:112-116 | the signed 24-bit value lies in [-2^23, 2^23) and is negative exactly when bit 7 of the first byte is set |
| `Decode.AdcReading` | Src/MCP9600.c:112-116 | the returned ADC value is 256 times the signed 24-bit reading: a multiple of 256, an int32, and negative exactly when bit 7 of the first byte is set |
| `Driver.TempReadResult` | Src/MCP9600.c:25-41 | a temperature read returns a value in [-2048, 2047]; it is non-zero only if both the pointer write and the 2-byte read succeed, and then it is the floored decode |
| `Driver.AdcReadResult` | Src/MCP9600.c:106-119 | an ADC read is non-zero only if both bus steps succeed, and then it is 256 times the signed 24-bit reading |
| `Driver.ByteReadResult` | Src/MCP9600.c:130-135 | a byte-register read returns 0 when the pointer write fails and otherwise the received byte |
| `Driver.ByteReadIgnoresReceiveStatus` | Src/MCP9600.c:133 | the receive's status has no effect on a byte-register read |
| `Driver.VerifiedWriteOutcome` | Src/MCP9600.c:169-176 | a verified write reports SUCCESS iff the write succeeds, the 1-byte read-back succeeds, and the byte read back is the value written |
| `Driver.AlertCfgOutcome` | Src/MCP9600.c:380-388 | with an accepted address, an acknowledged write is always FAILURE; SUCCESS iff the write failed, the read succeeded, and it returned the value |
| `Driver.AlertLimitOutcome` | Src/MCP9600.c:270-278 | with an accepted address, SUCCESS iff the write succeeds, the first byte read back is the low byte sent, and the second is the stray byte; the read status plays no part |
| `Driver.AlertLimitStrayDecides` | Src/MCP9600.c:274 | for the same bus answers, the byte past the buffer alone decides between SUCCESS and FAILURE |
| `Driver.SetRegPtrRd` | Src/MCP9600.c:425-428 | transmits exactly the one-byte pointer and returns the bus's status |
| `Driver.SetRegPtrWr` | Src/MCP9600.c:438-441 | transmits exactly the address-and-data buffer and returns the bus's status |
| `Driver.ReadTempRegister` | Src/MCP9600.c:25-41 | one pointer write; a 2-byte read only if it succeeded; result as `TempReadResult` |
| `Driver.ReadByteRegister` | Src/MCP9600.c:130-135 | one pointer write; a 1-byte read only if it succeeded; result as `ByteReadResult` |
| `Driver.WriteByteVerified` | Src/MCP9600.c:162-178 | transmits `[addr, value]`; a 1-byte read-back only if the write succeeded; status as `VerifiedWriteOutcome` |
| `Driver.ReadThermocoupleTemp` | Src/MCP9600.c:23-42 | pointer 0x00, then a temperature read as `TempReadResult` |
| `Driver.ReadJunctionTemp` | Src/MCP9600.c:50-69 | pointer 0x01, then a temperature read as `TempReadResult` |
| `Driver.ReadColdJunctionTemp` | Src/MCP9600.c:77-96 | pointer 0x02, then a temperature read as `TempReadResult` |
| `Driver.ReadAdc` | Src/MCP9600.c:104-120 | pointer 0x03; a 3-byte read only if that succeeded; result as `AdcReadResult` |
| `Driver.ReadStatusReg` | Src/MCP9600.c:128-136 | pointer 0x04, then a byte read as `ByteReadResult` |
| `Driver.ReadSensorConfig` | Src/MCP9600.c:144-152 | pointer 0x05, then a byte read as `ByteReadResult` |
| `Driver.SetSensorConfig` | Src/MCP9600.c:160-179 | always transmits `[0x05, value]` with no address check; SUCCESS iff the write and the read-back succeed and the read-back equals the value |
| `Driver.ReadDeviceConfig` | Src/MCP9600.c:187-195 | pointer 0x06, then a byte read as `ByteReadResult` |
| `Driver.SetDeviceConfig` | Src/MCP9600.c:203-222 | always transmits `[0x06, value]` with no address check; SUCCESS iff the write and the read-back succeed and the read-back equals the value |
| `Driver.ReadAlertLimit` | Src/MCP9600.c:230-249 | a temperature read of any address, with no category check |
| `Driver.SetAlertLimit` | Src/MCP9600.c:258-283 | outside the limit category: FAILURE and no bus traffic; inside: transmits the address and the low byte of the value, reads 2 bytes if the write succeeded, status as `AlertLimitOutcome` |
| `Driver.ReadAlertHysteresis` | Src/MCP9600.c:291-304 | outside the hysteresis category: 0 and no bus traffic; inside: a byte read as `ByteReadResult` |
| `Driver.SetAlertHysteresis` | Src/MCP9600.c:313-340 | outside the category (checked on 16 bits): FAILURE and no bus traffic; inside: a verified write of the address's low byte and the value |
| `Driver.ReadAlertConfig` | Src/MCP9600.c:348-360 | outside the alert-config category: 0 and no bus traffic; inside: a byte read as `ByteReadResult` |
| `Driver.SetAlertConfig` | Src/MCP9600.c:369-393 | outside the category: FAILURE and no bus traffic; inside: transmits `[addr, value]`, reads back only after a failed write, status as `AlertCfgOutcome` |
| `Driver.ReadDeviceId` | Src/MCP9600.c:401-411 | pointer 0x20; the two raw bytes received if the pointer write succeeded, whatever the read status, else [0, 0] |
| `Scenarios.NegativeTemperature` | Src/MCP9600.c:32-41 | the register value -1/16 degree reads as -1 degree, and a failed read gives 0 |
| `Scenarios.AlertConfigInverted` | Src/MCP9600.c:380-388 | an acknowledged alert-config write reports FAILURE; a rejected one whose read happens to match reports SUCCESS |
| `Scenarios.AlertLimitDropsHighByte` | Src/MCP9600.c:266-267 | alert-limit values 0x0142 and 0x0042 put the same bytes on the bus |
| `Scenarios.HysteresisWideAddressRefused` | Src/MCP9600.c:319-337 | the 16-bit hysteresis address 0x010C is refused with no bus traffic |

## Left out

- `I2C_Write` and `I2C_Read` (Src/MCP9600_cfg.c) are wrappers over the vendor's LPI2C driver. The model replaces them with the scripted `Transport.I2CBus`. `I2C_Write` always sends 8 bytes from the caller's pointer, whatever the buffer's size. The model logs only the bytes the caller meant: the 1-byte pointer or the 2-byte pointer and payload. The over-read past the buffer is not modelled.
- The fixed timeout `I2C_TMOUT`, blocking, the HAL's own status codes, and sharing the bus between threads are not modelled. A timeout appears only as a FAILURE status in the script.
- Floating point is not modelled. The temperature routines return `float`, but every value they store is an integer in [-2048, 2047]. The model returns `int`.
- `Driver.ReadDeviceId` returns the two received bytes in the order they arrive. The C routine reads them into a `uint16_t` through a byte pointer. Its value therefore depends on the host's byte order, which the model does not fix.
- C undefined behaviour is replaced by explicit choices:
  - the signed overflow of `buff[0]<<24` is 32-bit wrap-around (`bv32`);
  - the out-of-bounds `buff[2]` is the parameter `stray` of `Driver.SetAlertLimit`;
  - the buffer contents after a failed read are whatever bytes the bus script supplies.
- When a script runs out, the stub answers FAILURE with no data, and missing bytes read as zero. This is a choice of the test double, not behaviour of the driver.
