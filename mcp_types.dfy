/** Basic types shared by the MCP9600 model: the 8-bit byte of the C `uint8_t`
    and the two-valued driver status `t_MCP_Status`. */
module McpTypes {

  /** An 8-bit unsigned byte (`uint8_t`). */
  type byte = bv8

  /** The driver's result code: `SUCCESS` or `FAILURE`, nothing in between. */
  datatype Status = Success | Failure
}
