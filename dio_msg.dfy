/** The request and reply messages exchanged between the high-level
    application and the real-time DIO application (DIODriveMsg.h), as values
    rather than byte layouts. */
module DioMsg {
  import opened CInt

  // Request codes.
  const DI_SET_CONFIG_AND_START: UInt32 := 1
  const DI_PULSE_COUNT_RESET: UInt32 := 2
  const DI_READ_PULSE_COUNT: UInt32 := 3
  const DI_READ_DUTY_SUM_TIME: UInt32 := 4
  const DI_READ_PULSE_LEVEL: UInt32 := 5
  const DI_READ_PIN_LEVEL: UInt32 := 6
  const DO_SET_CONFIG: UInt32 := 7
  const DO_SET_TRIGGER: UInt32 := 8
  const DO_TRIGGER_IMMEDIATE: UInt32 := 9
  const DIO_READ_VERSION: UInt32 := 255

  /** Size in bytes of the `levels` member of the reply union. */
  const LEVELS_SIZE: UInt32 := 4
  /** Size in bytes of the `version` member of the reply union. */
  const VERSION_SIZE := 256

  /** `DIO_DriverMsgHdr`. */
  datatype DriverMsgHdr = DriverMsgHdr(requestCode: UInt32, messageLen: UInt32)

  /** `DI_MsgSetConfig`. */
  datatype DiMsgSetConfig = DiMsgSetConfig(pinId: UInt32, minPulseWidth: UInt32, maxPulseCount: UInt32, isPulseHigh: bool)

  /** `DO_MsgSetConfig`: the dispatcher reads only its pin id. */
  datatype DoMsgSetConfig = DoMsgSetConfig(pinId: UInt32)

  /** `DIO_MsgResetPulseCount`. */
  datatype DioMsgResetPulseCount = DioMsgResetPulseCount(pinId: UInt32, initVal: UInt32)

  /** `DIO_MsgPinId`. */
  datatype DioMsgPinId = DioMsgPinId(pinId: UInt32)

  /** The body union, as the four views the dispatcher may read; which one is
      meaningful depends on the request code. */
  datatype MsgBody = MsgBody(
    setConfig: DiMsgSetConfig,
    setDOConfig: DoMsgSetConfig,
    resetPulseCount: DioMsgResetPulseCount,
    pinId: DioMsgPinId)

  /** `DIO_DriverMsg`. */
  datatype DriverMsg = DriverMsg(header: DriverMsgHdr, body: MsgBody)

  /** The message union of a reply: the pin levels, or the version string. */
  datatype ReturnPayload = Levels(levels: seq<bool>) | Version(version: string)

  /** `DIO_ReturnMsg`. */
  datatype ReturnMsg = ReturnMsg(returnCode: UInt32, messageLen: UInt32, message: ReturnPayload)

  /** What the dispatcher sends back for one request: an integer
      (`InterCoreComm_SendIntValue`), a return message
      (`InterCoreComm_SendReadData`), or nothing. */
  datatype Reply = SendInt(value: Int32) | SendReadData(data: ReturnMsg) | NoReply

  /** The pin id the request addresses, read through the view its request
      code selects; requests that address no pin give 0. */
  function AddressedPin(msg: DriverMsg): UInt32
  {
    var code := msg.header.requestCode;
    if code == DI_SET_CONFIG_AND_START then msg.body.setConfig.pinId
    else if code == DI_PULSE_COUNT_RESET then msg.body.resetPulseCount.pinId
    else if code == DO_SET_CONFIG then msg.body.setDOConfig.pinId
    else if code == DI_READ_PULSE_COUNT || code == DI_READ_DUTY_SUM_TIME || code == DI_READ_PIN_LEVEL then
      msg.body.pinId.pinId
    else 0
  }
}
