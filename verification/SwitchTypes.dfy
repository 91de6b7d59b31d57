/** The integer widths of the switch: `switch_types.h` and the two unsigned types of `MD5`. */
module SwitchTypes {
  type Byte = b: int | 0 <= b < 0x100
  type Half = h: int | 0 <= h < 0x1_0000
  type Word = w: int | 0 <= w < 0x1_0000_0000

  type EndpointId = Word
  type MessageId = Half
  type ServiceType = Byte
  type SessionId = Word
  type Fd = f: int | -0x8000_0000 <= f < 0x8000_0000

  // The commands (`ECommand`) that are answered without a registration, change the registry or are passed on.
  const ECHO: Byte := 1
  const REG: Byte := 2
  const FWD: Byte := 3
  const UNFWD: Byte := 4
  const SUB: Byte := 5
  const UNSUB: Byte := 6
  const REJECT: Byte := 7
  const UNREJECT: Byte := 8
  const PUBLISH: Byte := 9
  const PUBLISH_2: Byte := 10
  const SVC: Byte := 11
  const KICKOUT: Byte := 16

  datatype Option<+T> = None | Some(value: T)

  // The fixed part of a service request and of its response.
  datatype ServiceHeader = ServiceHeader(svcType: ServiceType, svcCmd: MessageId, session: SessionId, source: EndpointId)

  // The elements of a vector, as a set: what inserting or erasing a whole range works on.
  function Elements<T>(q: seq<T>): set<T> {
    set x | x in q
  }
}
