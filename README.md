# pg-stories in Dafny

pg-stories runs scripted conversations ("stories") with a PostgreSQL server, speaking
the v3 frontend/backend protocol. A story is written as text:

```
=== name
-> Q "select 1"
<- T
<- D
<- C
<- Z
===
```

Each `->` line is a message the client sends, named by its message-type byte. Each `<-`
line is the kind of message the client expects back. This project models the two core
pieces of the Go package and proves their properties:

- **The story builder** (`builder.go`):
  - `tokenParser.readToken`, a delimiter tokenizer over a `bufio.Reader`.
  - `parseResponse` and `parseCommand`, which turn a message-type byte and the tokens
    after it into a protocol message.
  - `parseStep` and `ParseNextStep`, which read one step line.
  - `ParseNext`, which reads a `=== name … ===` block into a `Story` that starts with the
    builder's startup steps.
- **The story runner** (`story.go`): the step loop of `Story.Run`. It sends each command,
  receives one message for each expected response and compares it by kind and, for an
  ErrorResponse, by SQLSTATE code. It stops at the first failure.

Modules, one per file, in dependency order:

| file | module | contents |
|---|---|---|
| wrappers.dfy | `Wrappers` | `Option`, `Result` |
| text.dfy | `Text` | `strings.Trim`, `strings.Split` / `Join` and their laws |
| strconv.dfy | `Strconv` | `strconv.ParseUint(s, 10, 32)`, and the literals `strconv.ParseFloat` accepts |
| messages.dfy | `Messages` | message kinds with their wire tags, frontend messages, steps, stories, error values (builder.go:14-53) |
| reader.dfy | `Reader` | `bufio.Reader.ReadString` over a string (class `BufReader`) and `readToken` (class `TokenParser`) |
| builder.dfy | `StoryBuilder` | class `Builder`. Each method is proved equal to a specification function of the text and the reader position. |
| builder_props.dfy | `BuilderProperties` | the code tables, the step grammar command by command, decimal round trips, the examples of builder_test.go |
| parse_next.dfy | `ParseNextProperties` | what `ParseNext` returns for a whole block, built up line by line |
| story.dfy | `StoryRunner` | the connection (class `Frontend`), the step loop `Drive` proved against the function `Replay`, and `Run` |

The connection is modelled as fixed inputs to a run:

- the sequence of entries the backend will deliver;
- how many sends the connection still accepts;
- which of the step loop and the timer reaches `Run`'s `select` first.

A run is therefore a function of the steps and these inputs. A receive with nothing left
to deliver blocks for ever in Go. The model calls this outcome `Stalled`.

Strings are sequences of bytes in Go, and here each `char` stands for one byte; UTF-8 is
never decoded. Go's byte counts and byte indexing (`len(txt) < 4` at builder.go:273,
`msgType[0]` at builder.go:291 and 293, `line[:3]` at builder.go:316) are therefore
counts and indexes of `char`s in the model. The model's results agree with Go's on
inputs whose characters are all single bytes, which includes every ASCII story.

Behaviour that the model follows as the code is written:

- **`E` without max-rows.** `-> E "portal"` with no max-rows token fails with the
  reader's EOF error (builder.go:208-218, `BuilderProperties.ExecuteNoRows`). It does not
  default to 0.
- **Timer first.** When the timer fires first, `Run` returns no error (story.go:150-161,
  `StoryRunner.RunResult`). It does not return a timeout error.
- **Bad header.** A header whose first three bytes are not `===` records an
  UnexpectedTokenError (builder.go:316-322). The next `ReadString` overwrites that error
  (builder.go:302), so the caller never sees it. `ParseNextProperties.StoryRead` shows
  this: its result does not depend on the header's first three bytes.
- **Last line without a newline.** Such a line is dropped without being parsed
  (builder.go:302-307, `ParseNextProperties.StoryUnclosed`). So `"=== t\n==="` gives the
  story `t`, with no steps and no error (`ParseNextProperties.UnclosedStoryExample`).
- **Empty stories.** A story is empty only when it has no steps at all; the startup steps
  count (builder.go:324-330).
- **No response buffer.** The runner does not keep a buffer of received messages. It
  does not check for unread backend traffic before a send or after the last step. Each
  response step receives exactly one message, synchronously (story.go:117-124).

## Model

| member | source | states |
|---|---|---|
| Text.Trim | builder.go:80 | `strings.Trim` never lengthens its text; TrimEnds, TrimAllCut, TrimUntouched and TrimOneDelimiter state what it keeps and removes. |
| Text.TrimLeftSuffix | builder.go:80 | `strings.Trim` from the left removes a prefix made only of characters of the cut set. What remains is empty or starts outside the cut set. |
| Text.TrimRightPrefix | builder.go:80 | From the right, `strings.Trim` removes a suffix made only of characters of the cut set. What remains is empty or ends outside the cut set. |
| Text.TrimEnds | builder.go:281 | A trimmed text is a contiguous piece of the original. Every character before or after it is in the cut set, and a non-empty result neither starts nor ends with one. |
| Text.TrimAllCut | builder.go:311-313 | A line made only of characters of the cut set trims to the empty line, so `ParseNext` skips a whitespace-only line. |
| Text.TrimUntouched | builder.go:80 | Trimming changes nothing when neither end is in the cut set. |
| Text.TrimOneDelimiter | builder.go:80 | A token read up to its end delimiter trims back to its content. |
| Text.Split | builder.go:175 | `strings.Split` gives at least one part, no part contains the separator, and joining the parts gives back the text. |
| Text.SplitJoin | builder.go:237 | Splitting the join of separator-free parts gives back the parts. |
| Strconv.ParseUint32 | builder.go:211 | `strconv.ParseUint(s, 10, 32)` succeeds exactly on non-empty all-digit text whose value is at most 2^32-1, and then returns that value. Otherwise the error is ErrRange when the leading digits already exceed 2^32-1, and ErrSyntax when they do not, as for the empty text or a non-digit reached first. |
| Strconv.ScanDecimalStops | builder.go:211 | Past the leading digits, the scan has either overflowed on them (ErrRange) or stops at the first non-digit (ErrSyntax). |
| Strconv.ParseUintErrorKinds | builder.go:211 | `1a` is a syntax error; `5000000000x` is a range error. |
| Strconv.ScanDecimalCorrect | builder.go:238 | The digit-by-digit scan with its 32-bit overflow check agrees with the decimal value of the whole text. |
| Strconv.DecimalValuePrefix | builder.go:238 | A prefix of a digit string is a digit string with a value no larger. |
| Strconv.IsFloatLiteral | builder.go:176 | The texts `strconv.ParseFloat` accepts are never empty; DigitsAreFloat and PointedDigitsAreFloat show that decimal integers and decimals with a point are accepted. |
| Strconv.DigitsAreFloat | builder.go:176 | A non-empty run of decimal digits is accepted as a float. |
| Strconv.PointedDigitsAreFloat | builder.go:176 | Digits, a point and digits, with at least one digit, are accepted as a float. |
| Reader.ReadAt | builder.go:76 | `ReadString(delim)` gives the text up to and including the first `delim` and moves past it. Without a `delim`, it gives the rest of the text with EOF. |
| Reader.BufReader.ReadString | builder.go:302 | The cursor advances exactly as `ReadAt` states and returns what it states. |
| Reader.TokenParser.ReadToken | builder.go:69-82 | `readToken(start, end)` gives exactly `TokenAt`. Input through `start` is discarded, then the text through `end` is read. A read error gives the partial text untrimmed with that error; otherwise the token is trimmed of `start`/`end`. |
| Reader.ReadThrough | builder.go:302 | A line ending in a newline is read whole, and the reader stops just past the newline. |
| Reader.DelimitedToken | builder.go:69-82 | `lead"body"` gives `body`, with no error, and ends just after the closing delimiter. |
| Reader.BareToken | builder.go:76-80 | `readToken(0, end)` on `word` followed by `end` gives `word`. |
| Reader.LastBareToken | builder.go:76-79 | With no `end` left, `readToken(0, end)` gives the rest of the text untrimmed, with EOF. |
| StoryBuilder.ResponseKind | builder.go:95-146 | The kind a code names has that code as its wire tag. A code naming no kind is the wire tag of no kind. |
| StoryBuilder.ParseResponse | builder.go:93-155 | A `<-` code gives a Response step whose expected message is the empty template of the kind with that wire tag. Any other code gives UnknownMessageType carrying that code. |
| StoryBuilder.ParseOIDs | builder.go:236-244 | The OID entries parse exactly when every entry is a decimal u32, giving those values in order. Otherwise the result is InvalidArgError('P'). |
| StoryBuilder.BindAt | builder.go:160-186 | The B fields are a Bind message. The only error is the reader's EOF. |
| StoryBuilder.DescribeAt | builder.go:189-201 | The D fields are a Describe message. The errors are EOF, or InvalidArgError with its type left zero. |
| StoryBuilder.ExecuteAt | builder.go:202-219 | The E fields are an Execute message. The errors are EOF, or a ParseUint NumError. |
| StoryBuilder.ParseAt | builder.go:222-245 | The P fields are a Parse message. The errors are EOF or InvalidArgError('P'). |
| StoryBuilder.QueryAt | builder.go:248-253 | The Q fields are a Query message. The only error is EOF. |
| StoryBuilder.CommandAt | builder.go:157-263 | UnknownMessageType(code) is returned exactly for codes outside `B C D E H P p Q S X`. C, H, p, S and X never fail. |
| StoryBuilder.Dispatch | builder.go:289-295 | `<-` gives Response steps and `->` gives Command steps. Any other direction gives "invalid diraction definition". |
| StoryBuilder.StepSpec | builder.go:269-296 | An empty line gives "empty step definition". One shorter than 4 bytes gives "invalid step definition". The result is the empty UnexpectedTokenError exactly when the line is at least 4 bytes long and has no space, and no other UnexpectedTokenError can occur. |
| StoryBuilder.Feed | builder.go:301-339 | One line of `ParseNext`. Moving on to the next line means input has not ended, the line counter grew by one and the reader has moved past the line. At end of input, what was built is returned with no error. |
| StoryBuilder.FeedHeader | builder.go:315-325 | The first non-blank line starts the story with the startup steps. It is named by its text after three bytes, trimmed. It records an UnexpectedTokenError at that line when it does not start with `===`. |
| StoryBuilder.FeedStep | builder.go:334-339 | A step line that parses appends its step and clears the error. |
| StoryBuilder.Assemble | builder.go:298-342 | `ParseNext` from a reader position never moves backwards or past the end of the text. |
| StoryBuilder.ReadBindParams | builder.go:174-185 | The parameter loop gives `BindParams` of the array token. |
| StoryBuilder.ReadOIDs | builder.go:236-244 | The OID loop gives the OIDs of the array token, or stops with InvalidArgError('P') at the first bad entry. |
| StoryBuilder.Builder.constructor | builder.go:84-86 | `NewBuilder` reads from the start of the text and keeps the startup steps. |
| StoryBuilder.Builder.ReadBind | builder.go:160-186 | The B case gives `BindAt` of where the reader was, and leaves the reader at `CommandEnd('B', …)`. |
| StoryBuilder.Builder.ReadDescribe | builder.go:189-201 | The D case gives `DescribeAt` of where the reader was, and leaves the reader at `CommandEnd('D', …)`. |
| StoryBuilder.Builder.ReadExecute | builder.go:202-219 | The E case gives `ExecuteAt` of where the reader was, and leaves the reader at `CommandEnd('E', …)`. |
| StoryBuilder.Builder.ReadParse | builder.go:222-245 | The P case gives `ParseAt` of where the reader was, and leaves the reader at `CommandEnd('P', …)`. |
| StoryBuilder.Builder.ReadQuery | builder.go:248-253 | The Q case gives `QueryAt` of where the reader was, and leaves the reader at `CommandEnd('Q', …)`. |
| StoryBuilder.Builder.ParseCommand | builder.go:157-263 | `parseCommand` gives `CommandAt` of where the reader was, and leaves the reader at `CommandEnd`. |
| StoryBuilder.CommandEnd | builder.go:157-263 | Where `parseCommand` leaves the reader: never before where it started nor past the end, and unmoved for the codes without fields and for unknown codes. |
| StoryBuilder.Builder.ParseStep | builder.go:269-296 | `parseStep` gives `StepSpec` of the line. |
| StoryBuilder.Builder.ParseNextStep | builder.go:265-267 | `ParseNextStep` is `parseStep`. |
| StoryBuilder.Builder.FeedLine | builder.go:301-339 | The loop body of `ParseNext` gives `Feed` of the line just read. |
| StoryBuilder.Builder.ParseNext | builder.go:298-342 | `ParseNext` returns `Assemble` from where the reader was, and leaves the reader where `Assemble` says it stops. |
| BuilderProperties.ResponseKindRoundTrip | builder.go:95-143 | Each backend kind's wire tag names that kind. |
| BuilderProperties.WireTagInjective | builder.go:95-143 | No two kinds share a wire tag. |
| BuilderProperties.ResponseCodesExactly | builder.go:93-155 | A `<-` code parses exactly when it is one of the 24 codes `1 2 3 A c f C d D E G H I K n N R S t T V W Z s`. |
| BuilderProperties.StepTokens | builder.go:276-288 | A line is dispatched on its trimmed direction and message-type tokens. If the input ends after a non-empty type token, that is tolerated. |
| BuilderProperties.WordAt | builder.go:76-80 | A word followed by the end delimiter is read as that word. |
| BuilderProperties.CodeAt | builder.go:276-288 | In `dd c …`, the direction is `dd`, the code is `c`, and the rest of the line starts after them. |
| BuilderProperties.FrontendCase | builder.go:292-293 | A `->` line is `parseCommand` on the first byte of its type token. |
| BuilderProperties.CommandLine | builder.go:292-293 | `-> c …` is the command for code `c` on the rest of the line. |
| BuilderProperties.CommandAlone | builder.go:282-293 | `-> c` with nothing after it is the command for code `c`. |
| BuilderProperties.ResponseLine | builder.go:290-291 | `<- c` is `parseResponse(c)`. |
| BuilderProperties.UnknownDirection | builder.go:289-295 | A direction other than `<-` and `->` gives "invalid diraction definition". |
| BuilderProperties.DoubleSpace | builder.go:288-293 | An empty message-type token indexes out of range (a Go panic). |
| BuilderProperties.NoSeparator | builder.go:277-280 | A line without a space fails with an empty UnexpectedTokenError. |
| BuilderProperties.DelimitedAt | builder.go:69-82 | A delimited token is read as its content. |
| BuilderProperties.NoDelimiter | builder.go:70-74 | If the start delimiter is missing, the token is empty and the error is EOF. |
| BuilderProperties.QueryGrammar | builder.go:248-253 | `"query"` is a Query of that text, and the reader ends just past the closing quote. |
| BuilderProperties.QueryUnquoted | builder.go:248-252 | A Q line without a quote fails with EOF. |
| BuilderProperties.BindGrammar | builder.go:160-186 | `"name" "stmt" [list]` is a Bind of portal `name` and statement `stmt`, with the parameters of `list`. The reader ends just past `]`. |
| BuilderProperties.BindParamsOfEntries | builder.go:174-185 | There is one parameter per comma-separated entry, in order. A parameter is a float exactly when its entry parses as one, and its own text otherwise. |
| BuilderProperties.ParseGrammar | builder.go:222-245 | `"name" "query" [list]` is a Parse with the OIDs of `list`, or InvalidArgError('P'). The reader ends just past `]`. |
| BuilderProperties.DescribeGrammar | builder.go:189-201 | `S "name"` or `P "name"` is a Describe of that target, and the reader ends just past the closing quote. |
| BuilderProperties.DescribeOpenName | builder.go:197-201 | If the quoted name is missing, the Describe has an empty name; the EOF is tolerated. |
| BuilderProperties.DescribeBadTarget | builder.go:190-196 | A target other than `S` or `P` gives InvalidArgError with its type left zero, and the reader stops after the target. |
| BuilderProperties.RowsToken | builder.go:208 | The text after the space is the max-rows token, read with EOF. |
| BuilderProperties.ExecuteGrammar | builder.go:202-219 | A max-rows token sets MaxRows when it is a decimal u32. Otherwise the result is ParseUint's error for that token. The reader ends at the end of the line. |
| BuilderProperties.ExecuteNoRows | builder.go:208-218 | Without a max-rows token, E fails with EOF. |
| BuilderProperties.Digit | builder.go:238 | The digit character of `d` has digit value `d`. |
| BuilderProperties.Decimal | builder.go:238 | The decimal writing of a number is a non-empty digit string. |
| BuilderProperties.DecimalRoundTrip | builder.go:238 | The decimal writing of `n` has value `n`. |
| BuilderProperties.ParseUintDecimal | builder.go:238 | ParseUint of a u32 written in decimal gives it back. |
| BuilderProperties.OIDsRoundTrip | builder.go:236-244 | OIDs written in decimal and joined by commas parse back to the same OIDs. |
| BuilderProperties.FieldsLine | builder.go:292-293 | A `-> c` line with fields is `parseCommand` on them. |
| BuilderProperties.QueryLine | builder.go:248-253 | `-> Q "query"` is a Query command. |
| BuilderProperties.BindLine | builder.go:160-186 | A whole B line is its Bind command. |
| BuilderProperties.ParseLine | builder.go:222-245 | A whole P line is its Parse command, or InvalidArgError('P'). |
| BuilderProperties.DescribeLine | builder.go:189-201 | A whole D line is its Describe command. |
| BuilderProperties.ExecuteLine | builder.go:202-219 | A whole E line with a numeric max-rows is its Execute command. |
| BuilderProperties.QueryExample | builder_test.go:40-64 | `-> Q "baaa"` is Query("baaa"). |
| BuilderProperties.ParseExample | builder_test.go:67-89 | `-> P "" "baaa" [1]` is an unnamed Parse with the single OID 1. |
| BuilderProperties.ParseExampleTokens | builder_test.go:67-89 | The tokens of that line are the empty name, the query and the list `1`. |
| BuilderProperties.ParseExampleOIDs | builder.go:236-244 | The list `1` is the single OID 1. |
| BuilderProperties.BindExample | builder_test.go:125-153 | `[1,baa,1.2]` gives three parameters: float, text, float. |
| BuilderProperties.BindEntries | builder.go:175 | `1,baa,1.2` has the entries `1`, `baa` and `1.2`. |
| BuilderProperties.FloatLiterals | builder.go:176 | ParseFloat accepts `1` and `1.2` and rejects `baa`. |
| BuilderProperties.ExecuteExample | builder_test.go:163-182 | `-> E "portal_name" 10` is Execute with MaxRows 10. |
| ParseNextProperties.ReadsLinesEnd | builder.go:302 | Reading whole lines never passes the end of the text. |
| ParseNextProperties.AssembleNext | builder.go:300-339 | A line after which the loop goes on leaves the rest to the next lines. |
| ParseNextProperties.AssembleDone | builder.go:300-339 | A line that makes the loop return gives that result. |
| ParseNextProperties.EndOfInput | builder.go:302-307 | With no newline left, `ParseNext` returns what it built with no error, and the reader ends at the end of the text. |
| ParseNextProperties.BlankRead | builder.go:310-314 | A blank line is skipped. It still counts as a line and clears the error. |
| ParseNextProperties.HeaderRead | builder.go:315-325 | The header names the story and starts it with the startup steps, whatever its first three bytes are. |
| ParseNextProperties.ShortHeaderRead | builder.go:316 | A header of one or two bytes indexes out of range (a Go panic). |
| ParseNextProperties.StepRead | builder.go:334-339 | A step line is appended to the story. |
| ParseNextProperties.StepFailsRead | builder.go:335-338 | A step line that fails returns the story so far with that line's error. |
| ParseNextProperties.CloseRead | builder.go:327-332 | `===` returns the story. The error is EmptyStoryError exactly when it has no steps at all. |
| ParseNextProperties.AssembleLines | builder.go:300-340 | Reading whole lines one by one is feeding them to the loop one by one. |
| ParseNextProperties.BodySteps | builder.go:312-339 | A block body has at most as many steps as lines. |
| ParseNextProperties.BodyFed | builder.go:310-339 | Blank lines are skipped and each other line appends its step, in line order. Every line counts. |
| ParseNextProperties.BodyRead | builder.go:300-340 | The loop passes over a block body with its steps appended in order. |
| ParseNextProperties.BlockRead | builder.go:300-340 | After a header and a body, the story is the startup steps followed by the body's steps. |
| ParseNextProperties.StoryRead | builder.go:298-342 | A whole block gives the startup steps followed by the body's steps, in line order, named by the trimmed header text after `===`. The error is EmptyStoryError exactly when there are no steps at all, startup steps included. It does not depend on the header's first three bytes. |
| ParseNextProperties.StoryFailsRead | builder.go:334-338 | A block that hits a bad step line returns the story so far with that line's error. |
| ParseNextProperties.StoryUnclosed | builder.go:302-307 | A block that the input ends inside returns the story so far with no error. A last line without a newline is not parsed. |
| ParseNextProperties.EmptyStoryExample | builder.go:327-331 | `=== t`, then `===`, with no startup steps, gives EmptyStoryError. |
| ParseNextProperties.UnclosedStoryExample | builder.go:302-307 | `=== t` then `===` with no final newline gives the story `t` and no error. |
| ParseNextProperties.ExampleHeader | builder.go:302-323 | The line `=== t` is read whole and names the story `t`. |
| ParseNextProperties.ExampleClose | builder.go:302-327 | The line `===` is read whole and trims to `===`. |
| StoryRunner.Check | story.go:125-138 | The check passes exactly when the expected message `Accepts` the received one: same kind and, for an ErrorResponse, an empty expected code or an equal code. A failure is a wrong type or a wrong code. |
| StoryRunner.Replay | story.go:107-145 | The loop never sends more than the connection accepts and never reads more entries than the backend has. |
| StoryRunner.Frontend.constructor | story.go:96 | A new connection has sent nothing. |
| StoryRunner.Frontend.Send | story.go:113 | A send appends the message to what was sent. It fails once the connection accepts no more. |
| StoryRunner.Frontend.Receive | story.go:120 | A receive consumes exactly one inbound entry, or blocks when there is none. |
| StoryRunner.ReplaySend | story.go:110-116 | A command that is sent leaves the rest of the run to the remaining steps. |
| StoryRunner.ReplayMatch | story.go:117-139 | An accepted response consumes one entry and leaves the rest to the remaining steps. |
| StoryRunner.ReplayCompletes | story.go:107-145 | A run completes exactly when every command is accepted and the entries answer the expected responses in order. It then has sent exactly the commands, in order, and read one entry per response. Whatever the outcome, what it sent is a prefix of the commands. |
| StoryRunner.ReplayScript | story.go:107-145 | Against a backend that sends exactly the expected messages, a run completes. It sends every command, in order. |
| StoryRunner.ReplayAppend | story.go:107-145 | Steps run in order. A run that stops or stalls sends and reads nothing of the later steps. A run that completes goes on with them on what is left. |
| StoryRunner.Drive | story.go:106-148 | The step loop sends, receives and ends exactly as `Replay` states. |
| StoryRunner.RunResult | story.go:150-161 | `Run` reports an error exactly when the loop stopped on one before the timer fired. On success, and when the timer fires first, there is no error. |
| StoryRunner.Run | story.go:100-162 | `Run` returns `RunResult` of the loop's outcome. The connection ends as the loop leaves it: what was sent, the inbound entries not consumed, and the sends it still accepts. |

## Left out

- Concurrency in `Story.Run` is not modelled: the goroutine, the `success` and `errors` channels, `select` and `time.NewTimer` (story.go:102-106, 146-160). The race is the parameter `timerFirst`. A loop that stalls on a silent backend is always overtaken by the timer.
- After reporting an error, the goroutine blocks for ever on `success <- true` (story.go:142-146). This leak has no observable effect on `Run`'s result, so it is not modelled.
- `reflect.TypeOf` is not modelled; message kinds are the enumeration `BackendKind`. Apart from the ErrorResponse code, the fields of a backend message are opaque bytes, because `Run` never compares them.
- The `pgproto3` codec and the network are not modelled. `Frontend.Send` and `Frontend.Receive` act on fixed inputs to the run: the inbound entries and a count of sends the connection accepts. The reasons a Go send would fail are not modelled.
- StoryBuilder.BindParamOf: a float parameter is kept as `Float64(literal)`, standing for its 8 little-endian IEEE-754 bytes (builder.go:176-182). Floating-point values and their encoding are not modelled.
- Strconv.IsFloatLiteral accepts decimal literals and the spellings inf, infinity and nan. Hexadecimal floats and underscores are left out. A decimal literal outside float64 range counts as a float, but `strconv.ParseFloat` reports a range error for it, so Go would keep its raw bytes.
- Go runtime panics are modelled as the error value `IndexOutOfRange`. These are `line[:3]` on a one- or two-byte header (builder.go:316) and `msgType[0]` on an empty type token (builder.go:291, 293).
- The `Error()` methods' message strings (builder.go:18-53) are not modelled; errors are compared as values. The errors made with `fmt.Errorf` in `parseStep` are `Failure` carrying their fixed text.
- `bufio.Reader` over a string only ever reports EOF. So `ParseNext`'s return on any other read error (builder.go:308) cannot happen here.
- The `testing.T` logging in `Run` (story.go:112, 121) is not modelled.
- The commented-out step runner (story.go:28-93) is not modelled.
- cmd/repl is not part of this model. It is an interactive prompt with its own globals, dial and timers.
- story_test.go is not part of this model. Its tests need a live server.
- A message filter callback, a buffer of received messages, and checks for unread backend traffic before a send or after the last step do not exist in story.go. This model has none of them.
- StoryRunner.Replay's own contract only bounds what a run sends and reads. What a run does is stated by the lemmas beside it: ReplayCompletes, ReplayAppend and ReplayScript.
- StoryBuilder.Builder.ParseNext: the returned story's steps are a fresh value. In Go, `&Story{Steps: b.startupSeq}` and the later `append` (builder.go:324, 339) share the backing array of the builder's startup slice. When that slice has spare capacity, a later `ParseNext` overwrites the steps of an earlier story, and a story with no appended steps aliases `startupSeq`. The model has no such aliasing. The callers in this repository never reach it: builder_test.go:21 passes no startup steps and cmd/repl/main.go:152 passes none either.
- StoryBuilder.Assemble's own contract only bounds the reader position. The block lemmas in ParseNextProperties state what `ParseNext` returns, for blocks whose lines are given as raw lines; `parse` is any step parser, and `ParseNext` uses `StepSpec`.
