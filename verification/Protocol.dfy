/** The messages of the signaling protocol. */
module Protocol {
  import opened JsMap

  // Participant ids are UUIDs. The code only ever compares them for equality,
  // so the k-th id the server issues is simply called k: among participants
  // the later joiner is the one with the greater id.
  type Id = nat
  // One per WebSocket.
  type ConnId = nat
  type RoomId = string

  /** A field of a parsed JSON payload. */
  datatype Json = Undefined | Null | Text(text: string) | Integer(n: int) | OtherJson

  datatype Signal =
    | Offer(sdp: Json)
    | Answer(sdp: Json)
    | Candidate(candidate: Json, sdpMid: Json, sdpMLineIndex: Json)

  /** Payloads a client may send. */
  datatype Body =
    | Ping
    | CreateRoom
    | JoinRoom(roomId: Json, displayName: Json)
    | SignalTo(target: Id, signal: Signal)
    | ChatSend(text: Json)
    | UnknownType

  /** One inbound WebSocket message: anything that is not a version 1 envelope
      with an object payload is garbage. */
  datatype Frame = Garbage | Request(requestId: Option<string>, body: Body)

  predicate IsSignal(f: Frame) { f.Request? && f.body.SignalTo? }

  datatype Chat = Chat(sender: Id, displayName: string, text: string, timestamp: int)

  /** Participants in the order of the room's Map, with their display names. */
  type People = Table<Id, string>

  datatype ServerMsg =
    | Error(code: int, requestId: Option<string>)
    | Pong(requestId: Option<string>)
    | RoomCreated(requestId: Option<string>)
    | RoomJoined(self: Id, people: People, requestId: Option<string>)
    | ParticipantJoined(id: Id, displayName: string)
    | ParticipantLeft(id: Id)
    | Relay(sender: Id, signal: Signal)
    | ChatMessage(chat: Chat)

  predicate IsReply(m: ServerMsg) { m.Error? || m.Pong? || m.RoomCreated? }

  predicate IsSpace(c: char) {
    c in "\t\n\r " || c == '\U{0B}' || c == '\U{0C}' || c == '\U{A0}' || c == '\U{1680}'
    || '\U{2000}' <= c <= '\U{200A}' || c == '\U{2028}' || c == '\U{2029}'
    || c == '\U{202F}' || c == '\U{205F}' || c == '\U{3000}' || c == '\U{FEFF}'
  }

  function TrimStart(s: string): string {
    if s != [] && IsSpace(s[0]) then TrimStart(s[1..]) else s
  }

  function TrimEnd(s: string): string {
    if s != [] && IsSpace(s[|s| - 1]) then TrimEnd(s[..|s| - 1]) else s
  }

  function Trim(s: string): string { TrimEnd(TrimStart(s)) }

  predicate ValidRoomId(j: Json) {
    j.Text? && 3 <= |j.text| <= 32
    && forall i :: 0 <= i < |j.text| ==>
      'a' <= j.text[i] <= 'z' || 'A' <= j.text[i] <= 'Z' || '0' <= j.text[i] <= '9'
  }

  predicate ValidName(j: Json) { j.Text? && Trim(j.text) != "" && |j.text| <= 50 }

  predicate ValidChat(j: Json) { j.Text? && Trim(j.text) != "" && |j.text| <= 4000 }

  predicate ValidSignal(s: Signal) {
    match s
    case Candidate(candidate, mid, index) =>
      candidate.Text? && |candidate.text| <= 4096
      && (mid.Undefined? || mid.Null? || mid.Text?)
      && (index.Undefined? || index.Null? || (index.Integer? && index.n >= 0))
    case _ => s.sdp.Text? && "v=0" <= s.sdp.text
  }
}
