/** The story DSL builder: message-type codes to messages, step lines to steps, and
    `=== name … ===` blocks to stories. Each method is proved equal to a specification
    function over the text and the reader position it starts from. */
module StoryBuilder {
  import opened Wrappers
  import opened Text
  import opened Strconv
  import opened Messages
  import opened Reader

  const Quote: char := '"'
  const ArrayStart: char := '['
  const ArrayEnd: char := ']'
  const BackendDirection: string := "<-"
  const FrontendDirection: string := "->"
  const StoryDelimiter: string := "==="
  /** The cut set "\t " used on directions, message types and story names. */
  const WhiteSpace: set<char> := {'\t', ' '}
  /** The cut set " \t\n" used on story lines. */
  const LineSpace: set<char> := {' ', '\t', '\n'}

  /** The kind a `<-` step's message-type code names. */
  function ResponseKind(code: char): (k: Option<BackendKind>)
    ensures k.Some? ==> WireTag(k.value) == code
    ensures k.None? ==> forall b :: WireTag(b) != code
  {
    match code
    case '1' => Some(ParseComplete)
    case '2' => Some(BindComplete)
    case '3' => Some(CloseComplete)
    case 'A' => Some(NotificationResponse)
    case 'c' => Some(CopyDone)
    case 'f' => Some(CopyFail)
    case 'C' => Some(CommandComplete)
    case 'd' => Some(CopyData)
    case 'D' => Some(DataRow)
    case 'E' => Some(ErrorResponse)
    case 'G' => Some(CopyInResponse)
    case 'H' => Some(CopyOutResponse)
    case 'I' => Some(EmptyQueryResponse)
    case 'K' => Some(BackendKeyData)
    case 'n' => Some(NoData)
    case 'N' => Some(NoticeResponse)
    case 'R' => Some(Authentication)
    case 'S' => Some(ParameterStatus)
    case 't' => Some(ParameterDescription)
    case 'T' => Some(RowDescription)
    case 'V' => Some(FunctionCallResponse)
    case 'W' => Some(CopyBothResponse)
    case 'Z' => Some(ReadyForQuery)
    case 's' => Some(PortalSuspended)
    case _ => None
  }

  /** `Builder.parseResponse`: a bare expected message of the kind the code names, or
      UnknownMessageType carrying the code. No further token is read. */
  function ParseResponse(msgType: char): (r: Result<Step, Error>)
    ensures r.Ok? ==> r.value.Response? && r.value.expected == Template(r.value.expected.kind)
                      && WireTag(r.value.expected.kind) == msgType
    ensures r.Err? ==> r.error == UnknownMessageType(msgType) && forall k :: WireTag(k) != msgType
  {
    match ResponseKind(msgType)
    case Some(k) => Ok(Response(Template(k)))
    case None => Err(UnknownMessageType(msgType))
  }

  /** The ten codes `parseCommand` accepts. */
  predicate IsCommandCode(c: char)
  {
    c == 'B' || c == 'C' || c == 'D' || c == 'E' || c == 'H' || c == 'P' || c == 'p' || c == 'Q'
    || c == 'S' || c == 'X'
  }

  /** The five among them whose messages have no fields and read no further token. */
  predicate IsFieldless(c: char)
  {
    c == 'C' || c == 'H' || c == 'p' || c == 'S' || c == 'X'
  }

  /** One Bind array entry: the float encoding when the entry is a float literal, its own
      bytes otherwise. */
  function BindParamOf(p: string): BindParam
  {
    if IsFloatLiteral(p) then Float64(p) else Raw(p)
  }

  function MapBindParams(entries: seq<string>): seq<BindParam>
  {
    seq(|entries|, i requires 0 <= i < |entries| => BindParamOf(entries[i]))
  }

  /** The Bind parameters of an array token's content: none for "", otherwise one per
      comma-separated entry. */
  function BindParams(list: string): seq<BindParam>
  {
    if list == "" then [] else MapBindParams(Split(list, ','))
  }

  /** The loop of the Parse case: every entry must be a decimal u32; the first one that is
      not gives InvalidArgError for 'P'. */
  function ParseOIDs(entries: seq<string>): (r: Result<seq<u32>, Error>)
    ensures r.Ok? <==> forall i :: 0 <= i < |entries| ==> ParseUint32(entries[i]).Ok?
    ensures r.Ok? ==> |r.value| == |entries|
                      && forall i :: 0 <= i < |entries| ==> r.value[i] == ParseUint32(entries[i]).value
    ensures r.Err? ==> r.error == InvalidArgError('P')
  {
    if entries == [] then Ok([])
    else
      match ParseUint32(entries[0])
      case Err(_) => Err(InvalidArgError('P'))
      case Ok(v) =>
        match ParseOIDs(entries[1..])
        case Err(e) => Err(e)
        case Ok(rest) =>
          assert forall i :: 1 <= i < |entries| ==> entries[i] == entries[1..][i - 1];
          Ok([v] + rest)
  }

  function OIDs(list: string): Result<seq<u32>, Error>
  {
    if list == "" then Ok([]) else ParseOIDs(Split(list, ','))
  }

  /** `-> B`: two quoted tokens and an array token. */
  function BindAt(text: string, pos: nat): (r: Result<FrontendMessage, Error>)
    requires pos <= |text|
    ensures r.Ok? ==> r.value.Bind?
    ensures r.Err? ==> r.error == EOF
  {
    var name := TokenAt(text, pos, Quote, Quote);
    if name.eof then Err(EOF)
    else
      var stmt := TokenAt(text, name.next, Quote, Quote);
      if stmt.eof then Err(EOF)
      else
        var params := TokenAt(text, stmt.next, ArrayStart, ArrayEnd);
        if params.eof then Err(EOF)
        else Ok(Bind(name.s, stmt.s, BindParams(params.s)))
  }

  /** `-> D`: a bare target token that must be exactly S or P, then a quoted name whose
      read may end the input. */
  function DescribeAt(text: string, pos: nat): (r: Result<FrontendMessage, Error>)
    requires pos <= |text|
    ensures r.Ok? ==> r.value.Describe?
    ensures r.Err? ==> r.error == EOF || r.error == InvalidArgError(NUL)
  {
    var t := TokenAt(text, pos, NUL, ' ');
    if t.eof then Err(EOF)
    else if t.s != "S" && t.s != "P" then Err(InvalidArgError(NUL))
    else Ok(Describe(t.s[0], TokenAt(text, t.next, Quote, Quote).s))
  }

  /** `-> E`: a quoted portal, then a space-delimited max-rows token. A non-empty token must
      be a decimal u32; an empty one is an error exactly when its read hit end of input. */
  function ExecuteAt(text: string, pos: nat): (r: Result<FrontendMessage, Error>)
    requires pos <= |text|
    ensures r.Ok? ==> r.value.Execute?
    ensures r.Err? ==> r.error == EOF || (r.error.NumError? && r.error.func == "ParseUint")
  {
    var portal := TokenAt(text, pos, Quote, Quote);
    if portal.eof then Err(EOF)
    else
      var maxRows := TokenAt(text, portal.next, ' ', ' ');
      if maxRows.s != "" then
        match ParseUint32(maxRows.s)
        case Ok(n) => Ok(Execute(portal.s, n))
        case Err(e) => Err(NumError("ParseUint", maxRows.s, e))
      else if maxRows.eof then Err(EOF)
      else Ok(Execute(portal.s, 0))
  }

  /** `-> P`: two quoted tokens and an array token of OIDs. */
  function ParseAt(text: string, pos: nat): (r: Result<FrontendMessage, Error>)
    requires pos <= |text|
    ensures r.Ok? ==> r.value.Parse?
    ensures r.Err? ==> r.error == EOF || r.error == InvalidArgError('P')
  {
    var name := TokenAt(text, pos, Quote, Quote);
    if name.eof then Err(EOF)
    else
      var query := TokenAt(text, name.next, Quote, Quote);
      if query.eof then Err(EOF)
      else
        var params := TokenAt(text, query.next, ArrayStart, ArrayEnd);
        if params.eof then Err(EOF)
        else
          match OIDs(params.s)
          case Ok(oids) => Ok(Parse(name.s, query.s, oids))
          case Err(e) => Err(e)
  }

  /** `-> Q`: one quoted token. */
  function QueryAt(text: string, pos: nat): (r: Result<FrontendMessage, Error>)
    requires pos <= |text|
    ensures r.Ok? ==> r.value.Query?
    ensures r.Err? ==> r.error == EOF
  {
    var q := TokenAt(text, pos, Quote, Quote);
    if q.eof then Err(EOF) else Ok(Query(q.s))
  }

  /** Where `parseCommand` leaves the reader: just after the last token the code reads, or
      after the first one that ends the input; a D with a target other than S or P stops
      after the target, and the codes without fields read nothing. */
  function CommandEnd(msgType: char, text: string, pos: nat): (n: nat)
    requires pos <= |text|
    ensures pos <= n <= |text|
    ensures !IsCommandCode(msgType) || IsFieldless(msgType) ==> n == pos
  {
    if msgType == 'B' || msgType == 'P' then
      var a := TokenAt(text, pos, Quote, Quote);
      if a.eof then a.next
      else
        var b := TokenAt(text, a.next, Quote, Quote);
        if b.eof then b.next else TokenAt(text, b.next, ArrayStart, ArrayEnd).next
    else if msgType == 'D' then
      var t := TokenAt(text, pos, NUL, ' ');
      if t.eof || (t.s != "S" && t.s != "P") then t.next
      else TokenAt(text, t.next, Quote, Quote).next
    else if msgType == 'E' then
      var portal := TokenAt(text, pos, Quote, Quote);
      if portal.eof then portal.next else TokenAt(text, portal.next, ' ', ' ').next
    else if msgType == 'Q' then TokenAt(text, pos, Quote, Quote).next
    else pos
  }

  /** The five codes whose messages have fields, each read from the following tokens. */
  function FieldsAt(msgType: char, text: string, pos: nat): (r: Result<FrontendMessage, Error>)
    requires msgType == 'B' || msgType == 'D' || msgType == 'E' || msgType == 'P' || msgType == 'Q'
    requires pos <= |text|
    ensures r.Err? ==> r.error.EOF? || r.error.InvalidArgError? || r.error.NumError?
  {
    if msgType == 'B' then BindAt(text, pos)
    else if msgType == 'D' then DescribeAt(text, pos)
    else if msgType == 'E' then ExecuteAt(text, pos)
    else if msgType == 'P' then ParseAt(text, pos)
    else QueryAt(text, pos)
  }

  /** `Builder.parseCommand` for the tokens of `text` from `pos`: the five codes with fields
      read them, the five without always succeed, and any other code gives
      UnknownMessageType. */
  function CommandAt(msgType: char, text: string, pos: nat): (r: Result<FrontendMessage, Error>)
    requires pos <= |text|
    ensures r == Err(UnknownMessageType(msgType)) <==> !IsCommandCode(msgType)
    ensures IsFieldless(msgType) ==> r.Ok?
    ensures r.Err? ==> !r.error.EmptyStoryError? && !r.error.UnexpectedTokenError?
  {
    if msgType == 'B' || msgType == 'D' || msgType == 'E' || msgType == 'P' || msgType == 'Q' then
      FieldsAt(msgType, text, pos)
    else
      match msgType
      case 'C' => Ok(Close(NUL, ""))
      case 'H' => Ok(Flush)
      case 'p' => Ok(PasswordMessage(""))
      case 'S' => Ok(Sync)
      case 'X' => Ok(Terminate)
      case _ => Err(UnknownMessageType(msgType))
  }

  /** The switch of `parseStep` on the trimmed direction and message type, the
      remaining tokens of `txt` starting at `pos`. A Go index panic on an empty message
      type is the IndexOutOfRange error. */
  function Dispatch(direction: string, msgType: string, txt: string, pos: nat): (r: Result<Step, Error>)
    requires pos <= |txt|
    ensures r.Ok? && direction == BackendDirection ==> r.value.Response?
    ensures r.Ok? && direction == FrontendDirection ==> r.value.Command?
    ensures r.Err? ==> !r.error.EmptyStoryError? && !r.error.UnexpectedTokenError?
    ensures direction != BackendDirection && direction != FrontendDirection
            ==> r == Err(Failure("invalid diraction definition"))
  {
    if direction == BackendDirection then
      if msgType == "" then Err(IndexOutOfRange) else ParseResponse(msgType[0])
    else if direction == FrontendDirection then
      if msgType == "" then Err(IndexOutOfRange)
      else
        match CommandAt(msgType[0], txt, pos)
        case Ok(msg) => Ok(Command(msg))
        case Err(e) => Err(e)
    else Err(Failure("invalid diraction definition"))
  }

  /** `Builder.parseStep` on one line: its length, then the direction and message-type
      tokens, then the switch. */
  function StepSpec(txt: string): (r: Result<Step, Error>)
    ensures |txt| == 0 ==> r == Err(Failure("empty step definition"))
    ensures 0 < |txt| < 4 ==> r == Err(Failure("invalid step definition"))
    ensures r.Err? ==> !r.error.EmptyStoryError?
    ensures r.Err? && r.error.UnexpectedTokenError? ==> r.error == UnexpectedTokenError(0, [], "")
    ensures r == Err(UnexpectedTokenError(0, [], "")) <==> |txt| >= 4 && ' ' !in txt
  {
    if |txt| == 0 then Err(Failure("empty step definition"))
    else if |txt| < 4 then Err(Failure("invalid step definition"))
    else
      var d := TokenAt(txt, 0, NUL, ' ');
      if d.eof then Err(UnexpectedTokenError(0, [], ""))
      else
        var m := TokenAt(txt, d.next, NUL, ' ');
        if m.eof && m.s == "" then Err(EOF)
        else Dispatch(Trim(d.s, WhiteSpace), Trim(m.s, WhiteSpace), txt, m.next)
  }

  /** A step-line parser, as `ParseNext` calls it on each line of a block. */
  type StepParser = string -> Result<Step, Error>

  /** The variables of `ParseNext`'s loop between two lines. */
  datatype Progress = Progress(story: Option<Story>, name: string, err: Option<Error>, line: nat)

  const Start: Progress := Progress(None, "", None, 0)

  /** What `ParseNext` returns, with where it leaves the reader. */
  datatype Parsed = Parsed(story: Option<Story>, name: string, err: Option<Error>, next: nat)

  /** Where one line leaves `ParseNext`: returned, or on to the next line. */
  datatype Outcome = Done(parsed: Parsed) | Next(pos: nat, progress: Progress)

  /** What `ParseNext` does with one `ReadString('\n')` result `raw`, which ended the input
      when `eof` and left the reader at `next`. End of input returns what has been built,
      with no error. Blank lines are skipped. The first non-blank line is the header: its
      text after the first three bytes, trimmed, is the name, and the steps start as
      `startup`; a header not starting with "===" sets an error that the next read
      overwrites, and one shorter than three bytes panics. Then "===" closes the block,
      failing when there are no steps at all (the startup steps count); any other line is
      a step, and one that fails to parse ends the block with its error. */
  function Feed(raw: string, eof: bool, next: nat, startup: seq<Step>, parse: StepParser, p: Progress): (o: Outcome)
    ensures o.Next? ==> !eof && o.pos == next && o.progress.line == p.line + 1
    ensures o.Done? ==> o.parsed.next == next
    ensures eof ==> o == Done(Parsed(p.story, p.name, None, next))
  {
    if eof then Done(Parsed(p.story, p.name, None, next))
    else
      var i := p.line + 1;
      var line := Trim(raw, LineSpace);
      if line == "" then Next(next, Progress(p.story, p.name, None, i))
      else if p.story.None? then
        if |line| < 3 then Done(Parsed(p.story, p.name, Some(IndexOutOfRange), next))
        else
          var err := if line[..3] != StoryDelimiter
                     then Some(UnexpectedTokenError(i, [StoryDelimiter], line[..3])) else None;
          Next(next, Progress(Some(Story(startup)), Trim(line[3..], WhiteSpace), err, i))
      else if line == StoryDelimiter then
        Done(Parsed(p.story, p.name, if p.story.value.steps == [] then Some(EmptyStoryError) else None, next))
      else
        match parse(line)
        case Err(e) => Done(Parsed(p.story, p.name, Some(e), next))
        case Ok(step) => Next(next, Progress(Some(Story(p.story.value.steps + [step])), p.name, None, i))
  }

  /** A header line starts the story with the startup steps. */
  lemma FeedHeader(raw: string, next: nat, startup: seq<Step>, parse: StepParser, p: Progress)
    requires p.story.None? && |Trim(raw, LineSpace)| >= 3
    ensures var line := Trim(raw, LineSpace);
            Feed(raw, false, next, startup, parse, p)
            == Next(next, Progress(Some(Story(startup)), Trim(line[3..], WhiteSpace),
                                   if line[..3] != StoryDelimiter
                                   then Some(UnexpectedTokenError(p.line + 1, [StoryDelimiter], line[..3]))
                                   else None,
                                   p.line + 1))
  {
  }

  /** A step line that parses is appended to the story. */
  lemma FeedStep(raw: string, next: nat, startup: seq<Step>, parse: StepParser, p: Progress, step: Step)
    requires p.story.Some?
    requires var line := Trim(raw, LineSpace);
             line != "" && line != StoryDelimiter && parse(line) == Ok(step)
    ensures Feed(raw, false, next, startup, parse, p)
            == Next(next, Progress(Some(Story(p.story.value.steps + [step])), p.name, None, p.line + 1))
  {
  }

  /** `Builder.ParseNext` from reader position `pos`: lines fed in order until one ends the
      block or the input. A final line without a newline ends the input unread. */
  function Assemble(text: string, pos: nat, startup: seq<Step>, parse: StepParser, p: Progress): (r: Parsed)
    requires pos <= |text|
    ensures pos <= r.next <= |text|
    decreases |text| - pos
  {
    var rd := ReadAt(text, pos, '\n');
    match Feed(rd.s, rd.eof, rd.next, startup, parse, p)
    case Done(r) => r
    case Next(n, q) => Assemble(text, n, startup, parse, q)
  }

  /** The parameter loop of the B case: each comma-separated entry of the array token in
      turn, as a float when it parses as one and as its own bytes otherwise. */
  method ReadBindParams(list: string) returns (parameters: seq<BindParam>)
    ensures parameters == BindParams(list)
  {
    parameters := [];
    if list != "" {
      var entries := Split(list, ',');
      for i := 0 to |entries|
        invariant |parameters| == i
        invariant forall j :: 0 <= j < i ==> parameters[j] == BindParamOf(entries[j])
      {
        var p := entries[i];
        if IsFloatLiteral(p) {
          parameters := parameters + [Float64(p)];
        } else {
          parameters := parameters + [Raw(p)];
        }
      }
      assert parameters == MapBindParams(entries);
    }
  }

  /** The OID loop of the P case: each comma-separated entry in turn, stopping at the first
      one that is not a decimal u32. */
  method ReadOIDs(list: string) returns (oids: Result<seq<u32>, Error>)
    ensures oids == OIDs(list)
  {
    var acc: seq<u32> := [];
    if list != "" {
      var entries := Split(list, ',');
      for i := 0 to |entries|
        invariant |acc| == i
        invariant forall j :: 0 <= j < i ==> ParseUint32(entries[j]).Ok? && acc[j] == ParseUint32(entries[j]).value
      {
        var v := ParseUint32(entries[i]);
        if v.Err? {
          assert !ParseUint32(entries[i]).Ok?;
          return Err(InvalidArgError('P'));
        }
        acc := acc + [v.value];
      }
      assert ParseOIDs(entries).value == acc;
    }
    return Ok(acc);
  }

  class Builder {
    const r: BufReader
    const startupSeq: seq<Step>

    /** `NewBuilder(r, startupSeq...)`. */
    constructor (text: string, startupSeq: seq<Step>)
      ensures fresh(r) && r.Valid() && r.text == text && r.pos == 0
      ensures this.startupSeq == startupSeq
    {
      r := new BufReader(text);
      this.startupSeq := startupSeq;
    }

    /** The B case of `parseCommand`: portal, statement and parameter array. */
    method ReadBind(parser: TokenParser) returns (res: Result<FrontendMessage, Error>)
      requires parser.r.Valid()
      modifies parser.r
      ensures parser.r.Valid()
      ensures res == BindAt(parser.r.text, old(parser.r.pos))
      ensures parser.r.pos == CommandEnd('B', parser.r.text, old(parser.r.pos))
    {
      var name, e1 := parser.ReadToken(Quote, Quote);
      if e1 { return Err(EOF); }
      var stmt, e2 := parser.ReadToken(Quote, Quote);
      if e2 { return Err(EOF); }
      var params, e3 := parser.ReadToken(ArrayStart, ArrayEnd);
      if e3 { return Err(EOF); }
      var parameters := ReadBindParams(params);
      res := Ok(Bind(name, stmt, parameters));
    }

    /** The D case of `parseCommand`: the S or P target, then a name whose read may end the
        input. */
    method ReadDescribe(parser: TokenParser) returns (res: Result<FrontendMessage, Error>)
      requires parser.r.Valid()
      modifies parser.r
      ensures parser.r.Valid()
      ensures res == DescribeAt(parser.r.text, old(parser.r.pos))
      ensures parser.r.pos == CommandEnd('D', parser.r.text, old(parser.r.pos))
    {
      var t, e1 := parser.ReadToken(NUL, ' ');
      if e1 { return Err(EOF); }
      if t != "S" && t != "P" { return Err(InvalidArgError(NUL)); }
      var name, e2 := parser.ReadToken(Quote, Quote);
      res := Ok(Describe(t[0], name));
    }

    /** The E case of `parseCommand`: the portal, then the optional row limit. */
    method ReadExecute(parser: TokenParser) returns (res: Result<FrontendMessage, Error>)
      requires parser.r.Valid()
      modifies parser.r
      ensures parser.r.Valid()
      ensures res == ExecuteAt(parser.r.text, old(parser.r.pos))
      ensures parser.r.pos == CommandEnd('E', parser.r.text, old(parser.r.pos))
    {
      var portal, e1 := parser.ReadToken(Quote, Quote);
      if e1 { return Err(EOF); }
      var maxRows, e2 := parser.ReadToken(' ', ' ');
      var err: Option<Error> := if e2 then Some(EOF) else None;
      var rows: u32 := 0;
      if maxRows != "" {
        match ParseUint32(maxRows)
        case Ok(n) =>
          err := None;
          rows := n;
        case Err(e) =>
          err := Some(NumError("ParseUint", maxRows, e));
      }
      if err.Some? { return Err(err.value); }
      res := Ok(Execute(portal, rows));
    }

    /** The P case of `parseCommand`: name, query and the array of parameter OIDs. */
    method ReadParse(parser: TokenParser) returns (res: Result<FrontendMessage, Error>)
      requires parser.r.Valid()
      modifies parser.r
      ensures parser.r.Valid()
      ensures res == ParseAt(parser.r.text, old(parser.r.pos))
      ensures parser.r.pos == CommandEnd('P', parser.r.text, old(parser.r.pos))
    {
      var name, e1 := parser.ReadToken(Quote, Quote);
      if e1 { return Err(EOF); }
      var query, e2 := parser.ReadToken(Quote, Quote);
      if e2 { return Err(EOF); }
      var params, e3 := parser.ReadToken(ArrayStart, ArrayEnd);
      if e3 { return Err(EOF); }
      var oids := ReadOIDs(params);
      if oids.Err? { return Err(oids.error); }
      res := Ok(Parse(name, query, oids.value));
    }

    /** The Q case of `parseCommand`: the query text. */
    method ReadQuery(parser: TokenParser) returns (res: Result<FrontendMessage, Error>)
      requires parser.r.Valid()
      modifies parser.r
      ensures parser.r.Valid()
      ensures res == QueryAt(parser.r.text, old(parser.r.pos))
      ensures parser.r.pos == CommandEnd('Q', parser.r.text, old(parser.r.pos))
    {
      var query, e1 := parser.ReadToken(Quote, Quote);
      if e1 { return Err(EOF); }
      res := Ok(Query(query));
    }

    /** `Builder.parseCommand`, reading its tokens from `parser`. */
    method ParseCommand(msgType: char, parser: TokenParser) returns (res: Result<FrontendMessage, Error>)
      requires parser.r.Valid()
      modifies parser.r
      ensures parser.r.Valid()
      ensures res == CommandAt(msgType, parser.r.text, old(parser.r.pos))
      ensures parser.r.pos == CommandEnd(msgType, parser.r.text, old(parser.r.pos))
    {
      match msgType
      case 'B' => res := ReadBind(parser);
      case 'C' => res := Ok(Close(NUL, ""));
      case 'D' => res := ReadDescribe(parser);
      case 'E' => res := ReadExecute(parser);
      case 'H' => res := Ok(Flush);
      case 'P' => res := ReadParse(parser);
      case 'p' => res := Ok(PasswordMessage(""));
      case 'Q' => res := ReadQuery(parser);
      case 'S' => res := Ok(Sync);
      case 'X' => res := Ok(Terminate);
      case _ => res := Err(UnknownMessageType(msgType));
    }

    /** `Builder.parseStep` on a fresh reader over `txt`. */
    method ParseStep(txt: string) returns (res: Result<Step, Error>)
      ensures res == StepSpec(txt)
    {
      if |txt| == 0 { return Err(Failure("empty step definition")); }
      if |txt| < 4 { return Err(Failure("invalid step definition")); }
      var reader := new BufReader(txt);
      var parser := new TokenParser(reader);
      var direction, e1 := parser.ReadToken(NUL, ' ');
      if e1 { return Err(UnexpectedTokenError(0, [], "")); }
      direction := Trim(direction, WhiteSpace);
      var msgType, e2 := parser.ReadToken(NUL, ' ');
      if e2 && msgType == "" { return Err(EOF); }
      msgType := Trim(msgType, WhiteSpace);
      if direction == BackendDirection {
        if msgType == "" { return Err(IndexOutOfRange); }
        return ParseResponse(msgType[0]);
      } else if direction == FrontendDirection {
        if msgType == "" { return Err(IndexOutOfRange); }
        var c := ParseCommand(msgType[0], parser);
        match c
        case Ok(msg) => return Ok(Command(msg));
        case Err(e) => return Err(e);
      }
      return Err(Failure("invalid diraction definition"));
    }

    /** `Builder.ParseNextStep`: one standalone step line. */
    method ParseNextStep(txt: string) returns (res: Result<Step, Error>)
      ensures res == StepSpec(txt)
    {
      res := ParseStep(txt);
    }

    /** The body of `ParseNext`'s loop, after the read: what it does with the line. */
    method FeedLine(raw: string, eof: bool, next: nat, p: Progress) returns (o: Outcome)
      ensures o == Feed(raw, eof, next, startupSeq, StepSpec, p)
    {
      var story, name, err, i := p.story, p.name, None, p.line;
      if eof {
        return Done(Parsed(story, name, err, next));
      }
      i := i + 1;
      var line := Trim(raw, LineSpace);
      if line == "" {
        return Next(next, Progress(story, name, err, i));
      }
      if story.None? {
        if |line| < 3 {
          err := Some(IndexOutOfRange);
          return Done(Parsed(story, name, err, next));
        }
        if line[..3] != StoryDelimiter {
          err := Some(UnexpectedTokenError(i, [StoryDelimiter], line[..3]));
        }
        name := Trim(line[3..], WhiteSpace);
        story := Some(Story(startupSeq));
        FeedHeader(raw, next, startupSeq, StepSpec, p);
        return Next(next, Progress(story, name, err, i));
      }
      if |line| == 3 && line == StoryDelimiter {
        if |story.value.steps| == 0 {
          err := Some(EmptyStoryError);
          return Done(Parsed(story, name, err, next));
        }
        return Done(Parsed(story, name, err, next));
      }
      var step := ParseStep(line);
      match step
      case Err(e) =>
        err := Some(e);
        return Done(Parsed(story, name, err, next));
      case Ok(s) =>
        FeedStep(raw, next, startupSeq, StepSpec, p, s);
        story := Some(Story(story.value.steps + [s]));
        return Next(next, Progress(story, name, err, i));
    }

    /** `Builder.ParseNext`: the next story block of the builder's input. */
    method ParseNext() returns (story: Option<Story>, name: string, err: Option<Error>)
      requires r.Valid()
      modifies r
      ensures r.Valid()
      ensures Assemble(r.text, old(r.pos), startupSeq, StepSpec, Start) == Parsed(story, name, err, r.pos)
    {
      var i: nat := 0;
      story, name, err := None, "", None;
      while true
        invariant r.Valid()
        invariant Assemble(r.text, old(r.pos), startupSeq, StepSpec, Start)
                  == Assemble(r.text, r.pos, startupSeq, StepSpec, Progress(story, name, err, i))
        decreases |r.text| - r.pos
      {
        ghost var before := r.pos;
        var line, eof := r.ReadString('\n');
        var o := FeedLine(line, eof, r.pos, Progress(story, name, err, i));
        match o
        case Done(parsed) =>
          story, name, err := parsed.story, parsed.name, parsed.err;
          return;
        case Next(_, q) =>
          story, name, err, i := q.story, q.name, q.err, q.line;
      }
    }
  }
}
