/** Properties of the story DSL builder: the code tables, how a step line is dispatched,
    the grammar of each command, and how `ParseNext` assembles a block. */
module BuilderProperties {
  import opened Wrappers
  import opened Text
  import opened Strconv
  import opened Messages
  import opened Reader
  import opened StoryBuilder

  /** The 24 response codes. */
  const ResponseCodes: set<char> :=
    {'1', '2', '3', 'A', 'c', 'f', 'C', 'd', 'D', 'E', 'G', 'H', 'I', 'K', 'n', 'N', 'R', 'S',
     't', 'T', 'V', 'W', 'Z', 's'}

  /** Every backend kind's code names that kind: the table is a bijection between the 24
      codes and the 24 kinds. */
  lemma ResponseKindRoundTrip(k: BackendKind)
    ensures ResponseKind(WireTag(k)) == Some(k)
    ensures WireTag(k) in ResponseCodes
  {
  }

  /** Distinct kinds have distinct codes. */
  lemma WireTagInjective(a: BackendKind, b: BackendKind)
    requires WireTag(a) == WireTag(b)
    ensures a == b
  {
    ResponseKindRoundTrip(a);
    ResponseKindRoundTrip(b);
  }

  /** A `<-` step succeeds exactly for the 24 codes. */
  lemma ResponseCodesExactly(c: char)
    ensures ParseResponse(c).Ok? <==> c in ResponseCodes
  {
  }

  /** The result of `parseStep` when `parseCommand` gives `r`. */
  function AsCommand(r: Result<FrontendMessage, Error>): Result<Step, Error>
  {
    match r
    case Ok(m) => Ok(Command(m))
    case Err(e) => Err(e)
  }

  /** `parseStep` once its first two tokens are read: the tokens, trimmed, choose the case,
      and the message is read from where the second token ended. */
  lemma StepTokens(txt: string, dir: string, code: string, dn: nat, mn: nat, meof: bool)
    requires 4 <= |txt| && dn <= |txt| && mn <= |txt|
    requires TokenAt(txt, 0, NUL, ' ') == Token(dir, false, dn)
    requires TokenAt(txt, dn, NUL, ' ') == Token(code, meof, mn)
    requires code != []
    ensures StepSpec(txt) == Dispatch(Trim(dir, WhiteSpace), Trim(code, WhiteSpace), txt, mn)
  {
  }

  /** A bare word at `pos` ahead of `end` is read as that word. */
  lemma WordAt(text: string, pos: nat, end: char, word: string)
    requires end != NUL && NUL !in word && end !in word
    requires pos + |word| < |text|
    requires forall i :: 0 <= i < |word| ==> text[pos + i] == word[i]
    requires text[pos + |word|] == end
    ensures TokenAt(text, pos, NUL, end) == Token(word, false, pos + |word| + 1)
  {
    assert text[pos..pos + |word| + 1] == word + [end];
    BareToken(text, pos, end, word);
  }

  /** A one-character code `c` after a two-character direction, each followed by a space or,
      for the code, by the end of the line: the code token is `[c]`, ending at `mn`. */
  lemma CodeAt(txt: string, c: char) returns (mn: nat)
    requires |txt| >= 4 && txt[2] == ' ' && txt[3] == c
    requires txt[0] != NUL && txt[0] != ' ' && txt[0] != '\t'
    requires txt[1] != NUL && txt[1] != ' ' && txt[1] != '\t'
    requires c != NUL && c != ' ' && c != '\t'
    requires |txt| == 4 || txt[4] == ' '
    ensures mn == if |txt| == 4 then 4 else 5
    ensures StepSpec(txt) == Dispatch(txt[..2], [c], txt, mn)
  {
    WordAt(txt, 0, ' ', txt[..2]);
    TrimUntouched(txt[..2], WhiteSpace);
    TrimUntouched([c], WhiteSpace);
    if |txt| == 4 {
      assert txt[3..] == [c];
      LastBareToken(txt, 3, ' ', [c]);
      mn := 4;
      StepTokens(txt, txt[..2], [c], 3, 4, true);
    } else {
      WordAt(txt, 3, ' ', [c]);
      mn := 5;
      StepTokens(txt, txt[..2], [c], 3, 5, false);
    }
  }

  /** The `->` case of the switch is `parseCommand` on the code's first character. */
  lemma FrontendCase(msgType: string, txt: string, pos: nat)
    requires pos <= |txt| && msgType != []
    ensures Dispatch(FrontendDirection, msgType, txt, pos) == AsCommand(CommandAt(msgType[0], txt, pos))
  {
  }

  /** `-> c …`: the command of code `c`, read from the tokens after the code. */
  lemma CommandLine(txt: string, c: char)
    requires |txt| > 4 && txt[0] == '-' && txt[1] == '>' && txt[2] == ' ' && txt[3] == c && txt[4] == ' '
    requires c != NUL && c != ' ' && c != '\t'
    ensures StepSpec(txt) == AsCommand(CommandAt(c, txt, 5))
  {
    var mn := CodeAt(txt, c);
    assert txt[..2] == FrontendDirection;
    FrontendCase([c], txt, mn);
  }

  /** `-> c` ending the line: the command of code `c` with nothing left to read. */
  lemma CommandAlone(txt: string, c: char)
    requires |txt| == 4 && txt[0] == '-' && txt[1] == '>' && txt[2] == ' ' && txt[3] == c
    requires c != NUL && c != ' ' && c != '\t'
    ensures StepSpec(txt) == AsCommand(CommandAt(c, txt, 4))
  {
    var mn := CodeAt(txt, c);
    assert txt[..2] == FrontendDirection;
    FrontendCase([c], txt, mn);
  }

  /** `<- c`: the bare expected message of code `c`; nothing after the code is read. */
  lemma ResponseLine(txt: string, c: char)
    requires |txt| >= 4 && txt[0] == '<' && txt[1] == '-' && txt[2] == ' ' && txt[3] == c
    requires c != NUL && c != ' ' && c != '\t'
    requires |txt| == 4 || txt[4] == ' '
    ensures StepSpec(txt) == ParseResponse(c)
  {
    var mn := CodeAt(txt, c);
    assert txt[..2] == BackendDirection;
  }

  /** Any other two-character direction is rejected whatever the code. */
  lemma UnknownDirection(txt: string)
    requires |txt| >= 4 && txt[2] == ' '
    requires txt[0] != NUL && txt[0] != ' ' && txt[0] != '\t'
    requires txt[1] != NUL && txt[1] != ' ' && txt[1] != '\t'
    requires txt[3] != NUL && txt[3] != ' ' && txt[3] != '\t'
    requires |txt| == 4 || txt[4] == ' '
    requires txt[..2] != BackendDirection && txt[..2] != FrontendDirection
    ensures StepSpec(txt) == Err(Failure("invalid diraction definition"))
  {
    var mn := CodeAt(txt, txt[3]);
  }

  /** Two spaces after the direction make the code token empty, and `msgType[0]` then
      panics. */
  lemma DoubleSpace(txt: string)
    requires |txt| >= 4 && txt[2] == ' ' && txt[3] == ' '
    requires txt[..2] == BackendDirection || txt[..2] == FrontendDirection
    ensures StepSpec(txt) == Err(IndexOutOfRange)
  {
    WordAt(txt, 0, ' ', txt[..2]);
    WordAt(txt, 3, ' ', []);
    TrimUntouched(txt[..2], WhiteSpace);
  }

  /** A line without a space has no direction token. */
  lemma NoSeparator(txt: string)
    requires |txt| >= 4
    requires forall i :: 0 <= i < |txt| ==> txt[i] != ' '
    ensures StepSpec(txt) == Err(UnexpectedTokenError(0, [], ""))
  {
  }

  /** At `pos`: `lead`, the delimiter `start`, `body`, the delimiter `end`, with `start` in
      neither `lead` nor `body` and `end` not in `body`. */
  predicate Delimited(text: string, pos: nat, lead: string, start: char, body: string, end: char)
  {
    pos + |lead| + |body| + 2 <= |text|
    && text[pos..pos + |lead| + |body| + 2] == lead + [start] + body + [end]
    && start !in lead && start !in body && end !in body
  }

  /** Just past such a token. */
  function Past(pos: nat, lead: string, body: string): nat
  {
    pos + |lead| + |body| + 2
  }

  lemma DelimitedAt(text: string, pos: nat, lead: string, start: char, body: string, end: char)
    requires start != NUL && Delimited(text, pos, lead, start, body, end)
    ensures TokenAt(text, pos, start, end) == Token(body, false, Past(pos, lead, body))
  {
    DelimitedToken(text, pos, start, end, lead, body);
  }

  /** No `start` delimiter left: the token is empty, with end of input. */
  lemma NoDelimiter(text: string, pos: nat, start: char, end: char)
    requires start != NUL && pos <= |text|
    requires forall i :: pos <= i < |text| ==> text[i] != start
    ensures TokenAt(text, pos, start, end) == Token("", true, |text|)
  {
  }

  /** `Q "query"`: the query is the quoted text. */
  lemma QueryGrammar(text: string, pos: nat, lead: string, query: string)
    requires Delimited(text, pos, lead, Quote, query, Quote)
    ensures QueryAt(text, pos) == Ok(Query(query))
    ensures CommandEnd('Q', text, pos) == Past(pos, lead, query)
  {
    DelimitedAt(text, pos, lead, Quote, query, Quote);
  }

  /** A `Q` without a quoted token fails with end of input. */
  lemma QueryUnquoted(text: string, pos: nat)
    requires pos <= |text|
    requires forall i :: pos <= i < |text| ==> text[i] != Quote
    ensures QueryAt(text, pos) == Err(EOF)
  {
    NoDelimiter(text, pos, Quote, Quote);
  }

  /** `B "portal" "statement" [list]`: the parameters are the entries of the list. */
  lemma BindGrammar(text: string, pos: nat, l1: string, name: string, l2: string, stmt: string,
                    l3: string, list: string)
    requires Delimited(text, pos, l1, Quote, name, Quote)
    requires Delimited(text, Past(pos, l1, name), l2, Quote, stmt, Quote)
    requires Delimited(text, Past(Past(pos, l1, name), l2, stmt), l3, ArrayStart, list, ArrayEnd)
    ensures BindAt(text, pos) == Ok(Bind(name, stmt, BindParams(list)))
    ensures CommandEnd('B', text, pos) == Past(Past(Past(pos, l1, name), l2, stmt), l3, list)
  {
    DelimitedAt(text, pos, l1, Quote, name, Quote);
    DelimitedAt(text, Past(pos, l1, name), l2, Quote, stmt, Quote);
    DelimitedAt(text, Past(Past(pos, l1, name), l2, stmt), l3, ArrayStart, list, ArrayEnd);
  }

  /** `P "name" "query" [list]`: the OIDs of the list, or InvalidArgError for 'P' when an
      entry is not a decimal u32. */
  lemma ParseGrammar(text: string, pos: nat, l1: string, name: string, l2: string, query: string,
                     l3: string, list: string)
    requires Delimited(text, pos, l1, Quote, name, Quote)
    requires Delimited(text, Past(pos, l1, name), l2, Quote, query, Quote)
    requires Delimited(text, Past(Past(pos, l1, name), l2, query), l3, ArrayStart, list, ArrayEnd)
    ensures ParseAt(text, pos) == if OIDs(list).Ok? then Ok(Parse(name, query, OIDs(list).value))
                                  else Err(InvalidArgError('P'))
    ensures CommandEnd('P', text, pos) == Past(Past(Past(pos, l1, name), l2, query), l3, list)
  {
    DelimitedAt(text, pos, l1, Quote, name, Quote);
    DelimitedAt(text, Past(pos, l1, name), l2, Quote, query, Quote);
    DelimitedAt(text, Past(Past(pos, l1, name), l2, query), l3, ArrayStart, list, ArrayEnd);
  }

  /** `D t "name"` with `t` one of S and P. */
  lemma DescribeGrammar(text: string, pos: nat, t: char, lead: string, name: string)
    requires t == 'S' || t == 'P'
    requires pos + 1 < |text| && text[pos] == t && text[pos + 1] == ' '
    requires Delimited(text, pos + 2, lead, Quote, name, Quote)
    ensures DescribeAt(text, pos) == Ok(Describe(t, name))
    ensures CommandEnd('D', text, pos) == Past(pos + 2, lead, name)
  {
    WordAt(text, pos, ' ', [t]);
    DelimitedAt(text, pos + 2, lead, Quote, name, Quote);
  }

  /** `D t` with no quoted name: the read's end of input is tolerated and the name is empty. */
  lemma DescribeOpenName(text: string, pos: nat, t: char)
    requires t == 'S' || t == 'P'
    requires pos + 1 < |text| && text[pos] == t && text[pos + 1] == ' '
    requires forall i :: pos + 2 <= i < |text| ==> text[i] != Quote
    ensures DescribeAt(text, pos) == Ok(Describe(t, ""))
  {
    WordAt(text, pos, ' ', [t]);
    NoDelimiter(text, pos + 2, Quote, Quote);
  }

  /** Any other target word is an InvalidArgError, with no message type. */
  lemma DescribeBadTarget(text: string, pos: nat, word: string)
    requires NUL !in word && ' ' !in word && word != "S" && word != "P"
    requires pos + |word| < |text| && text[pos + |word|] == ' '
    requires forall i :: 0 <= i < |word| ==> text[pos + i] == word[i]
    ensures DescribeAt(text, pos) == Err(InvalidArgError(NUL))
    ensures CommandEnd('D', text, pos) == pos + |word| + 1
  {
    WordAt(text, pos, ' ', word);
  }

  /** A space and then `rows` to the end of the text, read as a token delimited by spaces:
      `rows`, untrimmed, with end of input. */
  lemma RowsToken(text: string, a: nat, rows: string)
    requires a < |text| && text[a] == ' ' && text[a + 1..] == rows && ' ' !in rows
    ensures TokenAt(text, a, ' ', ' ') == Token(rows, true, |text|)
  {
    assert text[a..a + 1] == [] + [' '];
    ReadThrough(text, a, [], ' ');
    forall i | a + 1 <= i < |text| ensures text[i] != ' ' {
      assert text[i] == rows[i - a - 1];
    }
  }

  /** `E "portal" rows` at the end of the line: `rows` must be a decimal u32. */
  lemma ExecuteGrammar(text: string, pos: nat, lead: string, portal: string, rows: string)
    requires Delimited(text, pos, lead, Quote, portal, Quote)
    requires Past(pos, lead, portal) < |text| && text[Past(pos, lead, portal)] == ' '
    requires text[Past(pos, lead, portal) + 1..] == rows && rows != [] && ' ' !in rows
    ensures ExecuteAt(text, pos) == match ParseUint32(rows)
                                    case Ok(n) => Ok(Execute(portal, n))
                                    case Err(e) => Err(NumError("ParseUint", rows, e))
    ensures CommandEnd('E', text, pos) == |text|
  {
    DelimitedAt(text, pos, lead, Quote, portal, Quote);
    RowsToken(text, Past(pos, lead, portal), rows);
  }

  /** `E "portal"` with no row limit after it fails with end of input. */
  lemma ExecuteNoRows(text: string, pos: nat, lead: string, portal: string)
    requires Delimited(text, pos, lead, Quote, portal, Quote)
    requires forall i :: Past(pos, lead, portal) <= i < |text| ==> text[i] != ' '
    ensures ExecuteAt(text, pos) == Err(EOF)
  {
    DelimitedAt(text, pos, lead, Quote, portal, Quote);
    NoDelimiter(text, Past(pos, lead, portal), ' ', ' ');
  }

  /** A Bind list is split at commas; each entry is a float parameter exactly when it is a
      float literal, and otherwise its own text. */
  lemma BindParamsOfEntries(entries: seq<string>)
    requires |entries| >= 1 && forall i :: 0 <= i < |entries| ==> ',' !in entries[i]
    requires Join(entries, ',') != ""
    ensures var ps := BindParams(Join(entries, ','));
            |ps| == |entries|
            && forall i :: 0 <= i < |entries| ==>
                 (IsFloatLiteral(entries[i]) ==> ps[i] == Float64(entries[i]))
                 && (!IsFloatLiteral(entries[i]) ==> ps[i] == Raw(entries[i]))
  {
    SplitJoin(entries, ',');
  }

  /** The decimal digit of `d`. */
  function Digit(d: nat): (c: char)
    requires d < 10
    ensures IsDigit(c) && DigitValue(c) == d
  {
    ('0' as int + d) as char
  }

  /** `n` written in decimal, most significant digit first, as `strconv.FormatUint` does. */
  function Decimal(n: nat): (s: string)
    ensures s != [] && AllDigits(s)
  {
    if n < 10 then [Digit(n)] else Decimal(n / 10) + [Digit(n % 10)]
  }

  /** Reading a number's decimal form gives the number back. */
  lemma {:induction false} DecimalRoundTrip(n: nat)
    ensures DecimalValue(Decimal(n)) == n
  {
    if n >= 10 {
      var s := Decimal(n);
      assert s[..|s| - 1] == Decimal(n / 10);
      DecimalRoundTrip(n / 10);
    }
  }

  /** So `ParseUint` accepts the decimal form of every u32. */
  lemma ParseUintDecimal(n: u32)
    ensures ParseUint32(Decimal(n)) == Ok(n)
  {
    DecimalRoundTrip(n);
  }

  /** The OID list of a Parse step: the decimal forms of any non-empty sequence of u32
      values, separated by commas, are read back as that sequence. */
  lemma OIDsRoundTrip(oids: seq<u32>)
    requires |oids| >= 1
    ensures OIDs(Join(seq(|oids|, i requires 0 <= i < |oids| => Decimal(oids[i])), ',')) == Ok(oids)
  {
    var parts := seq(|oids|, i requires 0 <= i < |oids| => Decimal(oids[i]));
    forall i | 0 <= i < |parts| ensures ',' !in parts[i] && ParseUint32(parts[i]) == Ok(oids[i]) {
      ParseUintDecimal(oids[i]);
      assert forall j :: 0 <= j < |parts[i]| ==> IsDigit(parts[i][j]);
    }
    SplitJoin(parts, ',');
    assert Join(parts, ',') != "" by {
      if |parts| > 1 {
        assert Join(parts, ',') == parts[0] + [','] + Join(parts[1..], ',');
      }
    }
    var r := ParseOIDs(parts);
    assert r.Ok?;
    assert r.value == oids;
  }

  /** The start of a `-> c ` line. */
  predicate CommandPrefix(txt: string, c: char)
  {
    |txt| > 4 && txt[0] == '-' && txt[1] == '>' && txt[2] == ' ' && txt[3] == c && txt[4] == ' '
  }

  /** A `-> c ` line for a code with fields is the command those fields give. */
  lemma FieldsLine(txt: string, c: char, x: Result<FrontendMessage, Error>)
    requires CommandPrefix(txt, c) && (c == 'B' || c == 'D' || c == 'E' || c == 'P' || c == 'Q')
    requires FieldsAt(c, txt, 5) == x
    ensures StepSpec(txt) == AsCommand(x)
  {
    CommandLine(txt, c);
  }

  /** `-> Q "query"` is a Query step. */
  lemma QueryLine(txt: string, lead: string, query: string)
    requires CommandPrefix(txt, 'Q') && Delimited(txt, 5, lead, Quote, query, Quote)
    ensures StepSpec(txt) == Ok(Command(Query(query)))
  {
    QueryGrammar(txt, 5, lead, query);
    assert FieldsAt('Q', txt, 5) == Ok(Query(query));
    FieldsLine(txt, 'Q', Ok(Query(query)));
  }

  /** `-> B "portal" "statement" [list]` is a Bind step with the list's parameters. */
  lemma BindLine(txt: string, l1: string, name: string, l2: string, stmt: string, l3: string, list: string)
    requires CommandPrefix(txt, 'B')
    requires Delimited(txt, 5, l1, Quote, name, Quote)
    requires Delimited(txt, Past(5, l1, name), l2, Quote, stmt, Quote)
    requires Delimited(txt, Past(Past(5, l1, name), l2, stmt), l3, ArrayStart, list, ArrayEnd)
    ensures StepSpec(txt) == Ok(Command(Bind(name, stmt, BindParams(list))))
  {
    BindGrammar(txt, 5, l1, name, l2, stmt, l3, list);
    assert FieldsAt('B', txt, 5) == Ok(Bind(name, stmt, BindParams(list)));
    FieldsLine(txt, 'B', Ok(Bind(name, stmt, BindParams(list))));
  }

  /** `-> P "name" "query" [list]` is a Parse step with the list's OIDs, or fails with
      InvalidArgError for 'P'. */
  lemma ParseLine(txt: string, l1: string, name: string, l2: string, query: string, l3: string, list: string)
    requires CommandPrefix(txt, 'P')
    requires Delimited(txt, 5, l1, Quote, name, Quote)
    requires Delimited(txt, Past(5, l1, name), l2, Quote, query, Quote)
    requires Delimited(txt, Past(Past(5, l1, name), l2, query), l3, ArrayStart, list, ArrayEnd)
    ensures StepSpec(txt) == if OIDs(list).Ok? then Ok(Command(Parse(name, query, OIDs(list).value)))
                             else Err(InvalidArgError('P'))
  {
    var x := if OIDs(list).Ok? then Ok(Parse(name, query, OIDs(list).value)) else Err(InvalidArgError('P'));
    ParseGrammar(txt, 5, l1, name, l2, query, l3, list);
    assert FieldsAt('P', txt, 5) == x;
    FieldsLine(txt, 'P', x);
  }

  /** `-> D t "name"`, `t` one of S and P, is a Describe step. */
  lemma DescribeLine(txt: string, t: char, lead: string, name: string)
    requires CommandPrefix(txt, 'D') && (t == 'S' || t == 'P')
    requires |txt| > 6 && txt[5] == t && txt[6] == ' '
    requires Delimited(txt, 7, lead, Quote, name, Quote)
    ensures StepSpec(txt) == Ok(Command(Describe(t, name)))
  {
    DescribeGrammar(txt, 5, t, lead, name);
    assert FieldsAt('D', txt, 5) == Ok(Describe(t, name));
    FieldsLine(txt, 'D', Ok(Describe(t, name)));
  }

  /** `-> E "portal" rows` is an Execute step when `rows` is a decimal u32. */
  lemma ExecuteLine(txt: string, lead: string, portal: string, rows: string)
    requires CommandPrefix(txt, 'E') && Delimited(txt, 5, lead, Quote, portal, Quote)
    requires Past(5, lead, portal) < |txt| && txt[Past(5, lead, portal)] == ' '
    requires txt[Past(5, lead, portal) + 1..] == rows && ' ' !in rows
    requires ParseUint32(rows).Ok?
    ensures StepSpec(txt) == Ok(Command(Execute(portal, ParseUint32(rows).value)))
  {
    ExecuteGrammar(txt, 5, lead, portal, rows);
    assert FieldsAt('E', txt, 5) == Ok(Execute(portal, ParseUint32(rows).value));
    FieldsLine(txt, 'E', Ok(Execute(portal, ParseUint32(rows).value)));
  }

  /** The query step of the builder tests. */
  lemma QueryExample()
    ensures StepSpec("-> Q \"baaa\"") == Ok(Command(Query("baaa")))
  {
    var txt := "-> Q \"baaa\"";
    assert txt[5..11] == [] + [Quote] + "baaa" + [Quote];
    QueryLine(txt, [], "baaa");
  }

  /** The unnamed Parse step of the builder tests: one parameter OID, 1. */
  lemma ParseExample()
    ensures StepSpec("-> P \"\" \"baaa\" [1]") == Ok(Command(Parse("", "baaa", [1])))
  {
    ParseExampleTokens();
    ParseExampleOIDs();
    ParseLine("-> P \"\" \"baaa\" [1]", [], "", " ", "baaa", " ", "1");
  }

  /** The tokens of that step: the unnamed statement, the query and the OID list. */
  lemma ParseExampleTokens()
    ensures var txt := "-> P \"\" \"baaa\" [1]";
            && CommandPrefix(txt, 'P')
            && Delimited(txt, 5, [], Quote, "", Quote)
            && Delimited(txt, Past(5, [], ""), " ", Quote, "baaa", Quote)
            && Delimited(txt, Past(Past(5, [], ""), " ", "baaa"), " ", ArrayStart, "1", ArrayEnd)
  {
    var txt := "-> P \"\" \"baaa\" [1]";
    assert txt[5..7] == [] + [Quote] + "" + [Quote];
    assert txt[7..14] == " " + [Quote] + "baaa" + [Quote];
    assert txt[14..18] == " " + [ArrayStart] + "1" + [ArrayEnd];
  }

  /** The OID list "1" is the single OID 1. */
  lemma ParseExampleOIDs()
    ensures OIDs("1") == Ok([1])
  {
    OIDsRoundTrip([1]);
    assert Join(seq(1, i requires 0 <= i < 1 => Decimal([1 as u32][i])), ',') == "1";
  }

  /** The parameter list `[1,baa,1.2]` of the Bind step of the builder tests: the entries 1
      and 1.2 become float parameters and baa stays text. */
  lemma BindExample()
    ensures var ps := BindParams("1,baa,1.2");
            |ps| == 3 && ps[0] == Float64("1") && ps[1] == Raw("baa") && ps[2] == Float64("1.2")
  {
    BindEntries();
    BindParamsOfEntries(["1", "baa", "1.2"]);
    FloatLiterals();
  }

  /** The three entries of that list, joined by commas. */
  lemma BindEntries()
    ensures Join(["1", "baa", "1.2"], ',') == "1,baa,1.2"
  {
    var entries := ["1", "baa", "1.2"];
    assert entries[1..][1..] == ["1.2"];
    assert Join(entries[1..], ',') == "baa" + [','] + "1.2";
  }

  /** `ParseFloat` accepts "1" and "1.2" and rejects "baa". */
  lemma FloatLiterals()
    ensures IsFloatLiteral("1") && IsFloatLiteral("1.2") && !IsFloatLiteral("baa")
  {
    assert IndexOfExponent("1") == 1 && IndexOf("1", '.') == 1;
    assert IsDecimalFloat("1");
    assert IndexOfExponent("1.2") == 3 by {
      assert "1.2"[1..] == ".2" && ".2"[1..] == "2";
    }
    assert IndexOf("1.2", '.') == 1;
    assert "1.2"[2..] == "2";
    assert IsDecimalFloat("1.2");
    assert Lower("baa") == "baa";
    assert !IsSpecialFloat("baa");
    assert IndexOfExponent("baa") == 3 by {
      assert "baa"[1..] == "aa" && "aa"[1..] == "a";
    }
    assert IndexOf("baa", '.') == 3 by {
      assert "baa"[1..] == "aa" && "aa"[1..] == "a";
    }
    assert !IsDigit("baa"[0]);
  }

  /** `-> E "portal_name" 10`: at most ten rows from the portal. */
  lemma ExecuteExample()
    ensures StepSpec("-> E \"portal_name\" 10") == Ok(Command(Execute("portal_name", 10)))
  {
    var txt := "-> E \"portal_name\" 10";
    assert txt[5..18] == [] + [Quote] + "portal_name" + [Quote];
    assert txt[19..] == "10";
    ParseUintDecimal(10);
    assert Decimal(10) == "10";
    ExecuteLine(txt, [], "portal_name", "10");
  }
}
