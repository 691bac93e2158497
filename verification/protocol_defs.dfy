// The wire protocol's constants: packet size, message types, status codes and control subcommands.
module ProtocolDefs {
  const PACKET_BYTES := 32
  const SYNC_VERSION := 0xA1

  const MSG_MARKET_QUOTE := 0x01
  const MSG_MARKET_TRADE := 0x02
  const MSG_CONTROL := 0x03
  const MSG_STATUS := 0x06
  const MSG_LOOPBACK := 0x07

  const STATUS_OK := 0x01
  const STATUS_BAD_SYNC := 0xE1
  const STATUS_BAD_CHECKSUM := 0xE2
  const STATUS_BAD_TYPE := 0xE3
  const STATUS_BAD_SYMBOL := 0xE4
  const STATUS_DUPLICATE_SEQ := 0xE5
  const STATUS_STALE_SEQ := 0xE6
  const STATUS_BAD_SIDE := 0xE7
  const STATUS_BAD_CONTROL := 0xE8
  const STATUS_CONFIG_BUSY := 0xE9

  const CONTROL_SET_GLOBAL_FLAGS := 0x10
  const CONTROL_SET_LONG_MOMENTUM := 0x11
  const CONTROL_SET_SHORT_MOMENTUM := 0x12
  const CONTROL_SET_LONG_VWAP_DELTA := 0x13
  const CONTROL_SET_SHORT_VWAP_DELTA := 0x14
  const CONTROL_SET_LONG_IMBALANCE := 0x15
  const CONTROL_SET_SHORT_IMBALANCE := 0x16
  const CONTROL_SET_MAX_SPREAD := 0x17
  const CONTROL_SET_MIN_VOLUME := 0x18
  const CONTROL_SET_COOLDOWN := 0x19
  const CONTROL_SET_SYMBOL_ENABLE := 0x1A
  const CONTROL_CLEAR_SYMBOL_STATE := 0x1B
}
