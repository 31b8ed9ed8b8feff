/** The MCP9600 register map: the one-byte register-pointer addresses the driver
    writes before every access, and the three alert address categories that the
    alert routines check their address argument against. */
module Registers {
  import opened McpTypes

  const TH_TEMP_REG_ADDR: byte := 0x00
  const JD_TEMP_REG_ADDR: byte := 0x01
  const CD_TEMP_REG_ADDR: byte := 0x02
  const RAW_ADC_DATA_REG_ADDR: byte := 0x03
  const STAT_REG_ADDR: byte := 0x04
  const TH_SENS_CFG_REG_ADDR: byte := 0x05
  const DEVICE_CFG_REG_ADDR: byte := 0x06
  const ALERT1_CFG_REG_ADDR: byte := 0x08
  const ALERT2_CFG_REG_ADDR: byte := 0x09
  const ALERT3_CFG_REG_ADDR: byte := 0x0A
  const ALERT4_CFG_REG_ADDR: byte := 0x0B
  const ALERT1_HYS_REG_ADDR: byte := 0x0C
  const ALERT2_HYS_REG_ADDR: byte := 0x0D
  const ALERT3_HYS_REG_ADDR: byte := 0x0E
  const ALERT4_HYS_REG_ADDR: byte := 0x0F
  const TEMP_ALERT1_LIMIT_REG_ADDR: byte := 0x10
  const TEMP_ALERT2_LIMIT_REG_ADDR: byte := 0x11
  const TEMP_ALERT3_LIMIT_REG_ADDR: byte := 0x12
  const TEMP_ALERT4_LIMIT_REG_ADDR: byte := 0x13
  const DEVICE_ID_REG_ADDR: byte := 0x20

  /** All twenty register addresses, in the order the header declares them. */
  const REGISTER_MAP: seq<byte> := [
    TH_TEMP_REG_ADDR, JD_TEMP_REG_ADDR, CD_TEMP_REG_ADDR, RAW_ADC_DATA_REG_ADDR,
    STAT_REG_ADDR, TH_SENS_CFG_REG_ADDR, DEVICE_CFG_REG_ADDR,
    ALERT1_CFG_REG_ADDR, ALERT2_CFG_REG_ADDR, ALERT3_CFG_REG_ADDR, ALERT4_CFG_REG_ADDR,
    ALERT1_HYS_REG_ADDR, ALERT2_HYS_REG_ADDR, ALERT3_HYS_REG_ADDR, ALERT4_HYS_REG_ADDR,
    TEMP_ALERT1_LIMIT_REG_ADDR, TEMP_ALERT2_LIMIT_REG_ADDR,
    TEMP_ALERT3_LIMIT_REG_ADDR, TEMP_ALERT4_LIMIT_REG_ADDR,
    DEVICE_ID_REG_ADDR
  ]

  /** The alert-config category, tested the way the driver tests it: an
      equality with one of the four ALERTn_CFG addresses. */
  function IsAlertCfgAddr(a: byte): (b: bool)
    ensures b <==> 0x08 <= a <= 0x0B
  {
    a == ALERT1_CFG_REG_ADDR || a == ALERT2_CFG_REG_ADDR
    || a == ALERT3_CFG_REG_ADDR || a == ALERT4_CFG_REG_ADDR
  }

  /** The alert-hysteresis category (ALERTn_HYS). */
  function IsAlertHysAddr(a: byte): (b: bool)
    ensures b <==> 0x0C <= a <= 0x0F
  {
    a == ALERT1_HYS_REG_ADDR || a == ALERT2_HYS_REG_ADDR
    || a == ALERT3_HYS_REG_ADDR || a == ALERT4_HYS_REG_ADDR
  }

  /** The same category for a 16-bit address argument: the comparison is made on
      all 16 bits, so a word whose high byte is not zero never matches. */
  function IsAlertHysWord(a: bv16): (b: bool)
    ensures b <==> 0x0C <= a <= 0x0F
  {
    a <= 0xFF && IsAlertHysAddr(a as byte)
  }

  /** The alert-limit category (TEMP_ALERTn_LIMIT). */
  function IsAlertLimitAddr(a: byte): (b: bool)
    ensures b <==> 0x10 <= a <= 0x13
  {
    a == TEMP_ALERT1_LIMIT_REG_ADDR || a == TEMP_ALERT2_LIMIT_REG_ADDR
    || a == TEMP_ALERT3_LIMIT_REG_ADDR || a == TEMP_ALERT4_LIMIT_REG_ADDR
  }

  /** The twenty addresses are pairwise distinct, so each names one register. */
  lemma RegisterAddressesDistinct()
    ensures |REGISTER_MAP| == 20
    ensures forall i, j :: 0 <= i < j < |REGISTER_MAP| ==> REGISTER_MAP[i] != REGISTER_MAP[j]
  {
  }

  /** No address belongs to two alert categories, and none of the registers the
      driver writes without an address check (sensor and device configuration)
      or the device-ID register belongs to any of them. */
  lemma AlertCategoriesDisjoint(a: byte)
    ensures !(IsAlertCfgAddr(a) && IsAlertHysAddr(a))
    ensures !(IsAlertCfgAddr(a) && IsAlertLimitAddr(a))
    ensures !(IsAlertHysAddr(a) && IsAlertLimitAddr(a))
    ensures a in {TH_SENS_CFG_REG_ADDR, DEVICE_CFG_REG_ADDR, DEVICE_ID_REG_ADDR} ==>
              !IsAlertCfgAddr(a) && !IsAlertHysAddr(a) && !IsAlertLimitAddr(a)
  {
  }
}
