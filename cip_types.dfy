/** Status vocabulary shared by the attribute getters and setters. */
module CipTypes {
  import opened ByteBufs

  /** What a service or attribute function returns to the message router. */
  datatype EipStatus = EipStatusOk | EipStatusOkSend | EipStatusError

  /** The CIP general status a function may put into the response. */
  datatype GeneralStatus =
    | Success
    | InvalidAttributeValue
    | AttributeNotSettable
    | AttributeNotSupported

  /** What a getter writes: its return status and the bytes it appended to the
      response buffer (the written size it records is the length of `data`). */
  datatype Response = Response(status: EipStatus, data: Bytes)

  /** What a setter leaves behind: the status it returns together with the
      general status it set, or ReaderOverrun when a BufReader get had fewer
      request bytes left than its width (the reader then throws, and the
      setter does not return normally). */
  datatype SetterReply =
    | Returned(status: EipStatus, genStatus: GeneralStatus)
    | ReaderOverrun
}
