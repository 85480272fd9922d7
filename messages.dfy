/** The protocol messages a story talks about, the steps built from them, and the errors
    the builder can return. Message kinds are an enumeration standing in for the concrete
    `pgproto3` types the source compares by reflection. */
module Messages {
  import opened Strconv

  /** The backend (server to client) message kinds of the PostgreSQL v3 frontend/backend
      protocol that a story can expect. */
  datatype BackendKind =
    | ParseComplete | BindComplete | CloseComplete | NotificationResponse | CopyDone
    | CopyFail | CommandComplete | CopyData | DataRow | ErrorResponse | CopyInResponse
    | CopyOutResponse | EmptyQueryResponse | BackendKeyData | NoData | NoticeResponse
    | Authentication | ParameterStatus | ParameterDescription | RowDescription
    | FunctionCallResponse | CopyBothResponse | ReadyForQuery | PortalSuspended

  /** The one-byte type tag that starts a message of this kind on the wire
      ("Message Formats" section of the PostgreSQL protocol chapter). */
  function WireTag(k: BackendKind): char
  {
    match k
    case ParseComplete => '1'
    case BindComplete => '2'
    case CloseComplete => '3'
    case NotificationResponse => 'A'
    case CopyDone => 'c'
    case CopyFail => 'f'
    case CommandComplete => 'C'
    case CopyData => 'd'
    case DataRow => 'D'
    case ErrorResponse => 'E'
    case CopyInResponse => 'G'
    case CopyOutResponse => 'H'
    case EmptyQueryResponse => 'I'
    case BackendKeyData => 'K'
    case NoData => 'n'
    case NoticeResponse => 'N'
    case Authentication => 'R'
    case ParameterStatus => 'S'
    case ParameterDescription => 't'
    case RowDescription => 'T'
    case FunctionCallResponse => 'V'
    case CopyBothResponse => 'W'
    case ReadyForQuery => 'Z'
    case PortalSuspended => 's'
  }

  /** A backend message: its kind, the SQLSTATE `Code` field (meaningful for an
      ErrorResponse, empty otherwise) and the rest of its fields, which no comparison
      looks at, kept as opaque bytes. */
  datatype BackendMessage = BackendMessage(kind: BackendKind, code: string, payload: seq<bv8>)

  /** The bare message the builder makes for a `<-` step: a kind and nothing else. */
  function Template(k: BackendKind): BackendMessage
  {
    BackendMessage(k, "", [])
  }

  /** A Bind parameter. `Float64(lit)` stands for the 8 bytes of the little-endian IEEE-754
      encoding of the value of `lit`; `Raw(text)` for the bytes of `text` itself. */
  datatype BindParam = Float64(literal: string) | Raw(text: string)

  /** The frontend (client to server) messages a story can send. */
  datatype FrontendMessage =
    | Bind(destinationPortal: string, preparedStatement: string, parameters: seq<BindParam>)
    | Close(objectType: char, name: string)
    | Describe(objectType: char, name: string)
    | Execute(portal: string, maxRows: u32)
    | Flush
    | Parse(name: string, query: string, parameterOIDs: seq<u32>)
    | PasswordMessage(password: string)
    | Query(query: string)
    | Sync
    | Terminate
    | StartupMessage(protocolVersion: u32, startupParameters: map<string, string>)

  /** One scripted unit: a message to send, or a template of the message to expect. */
  datatype Step = Command(message: FrontendMessage) | Response(expected: BackendMessage)

  /** A parsed story: its steps, in script order. */
  datatype Story = Story(steps: seq<Step>)

  /** The NUL byte; as a `readToken` start delimiter it means "no start delimiter". */
  const NUL: char := 0 as char

  /** The errors the builder returns. */
  datatype Error =
    | UnknownMessageType(msgType: char)
    | EmptyStoryError
    | InvalidArgCountError(msgType: char)
    | InvalidArgError(msgType: char)
    | UnexpectedTokenError(line: int, expected: seq<string>, actual: string)
      /** an error made with `fmt.Errorf`, by its text */
    | Failure(text: string)
      /** `io.EOF` from the reader */
    | EOF
      /** a `*strconv.NumError` */
    | NumError(func: string, num: string, err: NumErr)
      /** a Go runtime panic (slice or index out of range) that the source does not recover */
    | IndexOutOfRange
}
