/**
 * The FIX 4.2 message records the market maker exchanges with its client:
 * the NewOrderSingle it receives and the ExecutionReport it sends back.
 * Only the fields the core reads or writes are kept; enumerated fields
 * carry their one-character FIX code, so codes the core does not know
 * about flow through exactly as they do in the C++ code.
 */
module Fix {

  datatype Option<T> = None | Some(value: T)

  /** A result that is either a value or the tag of a required field that was absent. */
  datatype Result<T> = Ok(value: T) | FieldNotFound(tag: nat)

  // Side (tag 54)
  const SideBuy: char := '1'
  const SideSell: char := '2'

  // OrdType (tag 40)
  const OrdTypeMarket: char := '1'
  const OrdTypeLimit: char := '2'

  // ExecTransType (tag 20)
  const ExecTransNew: char := '0'

  // ExecType (tag 150)
  const ExecTypeFill: char := '2'
  const ExecTypeRejected: char := '8'

  // OrdStatus (tag 39)
  const OrdStatusFilled: char := '2'
  const OrdStatusCanceled: char := '4'
  const OrdStatusRejected: char := '8'

  /** Tag of the Price field, the one optional field the matching code reads. */
  const PriceTag: nat := 44

  /** FIX::SessionID: the session's identifying strings; the default value is all empty. */
  datatype SessionID = SessionID(beginString: string, senderCompID: string, targetCompID: string, qualifier: string)

  const DefaultSession := SessionID("", "", "", "")

  /** A NewOrderSingle as far as the core looks at it; Price is present only when the client set it. */
  datatype Order = Order(
    clOrdID: string,
    symbol: string,
    side: char,
    orderQty: real,
    ordType: char,
    price: Option<real>)

  /**
   * An ExecutionReport. The fields set by the report's constructor are plain;
   * the ones set afterwards (or not at all) are optional. TransactTime is
   * a clock reading and is not part of the record.
   */
  datatype ExecutionReport = ExecutionReport(
    orderID: string,
    execID: string,
    execTransType: char,
    execType: char,
    ordStatus: char,
    symbol: string,
    side: char,
    leavesQty: real,
    cumQty: real,
    avgPx: real,
    clOrdID: Option<string>,
    lastQty: Option<real>,
    lastPx: Option<real>,
    text: Option<string>)

  /** What handling one inbound order leads to at the session boundary. */
  datatype Response =
    | Sent(report: ExecutionReport, session: SessionID)  // handed to sendToTarget for that session
    | NothingSent                                        // the engine has no application to send through
    | Thrown(tag: nat)                                   // FieldNotFound escaped to the FIX library
}
