/** Properties of `Builder.ParseNext`: how a block of lines `=== name`, steps, `===` is
    assembled into a story, what ends it early, and what holds of every result. */
module ParseNextProperties {
  import opened Wrappers
  import opened Text
  import opened Messages
  import opened Reader
  import opened StoryBuilder

  /** The raw lines `raws`, each as one `ReadString('\n')` returns it (newline included),
      read one after the other from `pos`. */
  predicate ReadsLines(text: string, pos: nat, raws: seq<string>)
    decreases |raws|
  {
    pos <= |text| &&
    (raws == [] ||
     (ReadAt(text, pos, '\n') == Read(raws[0], false, pos + |raws[0]|) &&
      ReadsLines(text, pos + |raws[0]|, raws[1..])))
  }

  /** Where the reader is after those lines. */
  function RawsEnd(pos: nat, raws: seq<string>): nat
    decreases |raws|
  {
    if raws == [] then pos else RawsEnd(pos + |raws[0]|, raws[1..])
  }

  /** Each raw line trims (by `ParseNext`'s " \t\n") to the corresponding line. */
  predicate TrimsTo(raws: seq<string>, ls: seq<string>)
    decreases |raws|
  {
    |raws| == |ls| && (raws == [] || (Trim(raws[0], LineSpace) == ls[0] && TrimsTo(raws[1..], ls[1..])))
  }

  /** The error `ParseNext` records for a header not starting with "===", at line `i`. */
  function HeaderError(i: nat, line: string): Option<Error>
    requires |line| >= 3
  {
    if line[..3] != StoryDelimiter then Some(UnexpectedTokenError(i, [StoryDelimiter], line[..3])) else None
  }

  lemma ReadsLinesEnd(text: string, pos: nat, raws: seq<string>)
    requires ReadsLines(text, pos, raws)
    ensures pos <= RawsEnd(pos, raws) <= |text|
    decreases |raws|
  {
    if raws != [] {
      ReadsLinesEnd(text, pos + |raws[0]|, raws[1..]);
    }
  }

  /** One line read and fed that leaves `ParseNext` going: the rest is assembled from there. */
  lemma AssembleNext(text: string, pos: nat, startup: seq<Step>, parse: StepParser, p: Progress, raw: string, next: nat, q: Progress)
    requires pos <= |text| && ReadAt(text, pos, '\n') == Read(raw, false, next)
    requires Feed(raw, false, next, startup, parse, p) == Next(next, q)
    ensures Assemble(text, pos, startup, parse, p) == Assemble(text, next, startup, parse, q)
  {
  }

  /** One line read and fed that makes `ParseNext` return. */
  lemma AssembleDone(text: string, pos: nat, startup: seq<Step>, parse: StepParser, p: Progress, raw: string, next: nat, r: Parsed)
    requires pos <= |text| && ReadAt(text, pos, '\n') == Read(raw, false, next)
    requires Feed(raw, false, next, startup, parse, p) == Done(r)
    ensures Assemble(text, pos, startup, parse, p) == r
  {
  }

  /** A final line without a newline is dropped: end of input returns what has been built,
      with no error. */
  lemma EndOfInput(text: string, pos: nat, startup: seq<Step>, parse: StepParser, p: Progress)
    requires pos <= |text|
    requires forall i :: pos <= i < |text| ==> text[i] != '\n'
    ensures Assemble(text, pos, startup, parse, p) == Parsed(p.story, p.name, None, |text|)
  {
  }

  /** A blank line is skipped (it still counts as a line). */
  lemma BlankRead(text: string, pos: nat, raw: string, next: nat, startup: seq<Step>, parse: StepParser, p: Progress)
    requires pos <= |text| && ReadAt(text, pos, '\n') == Read(raw, false, next)
    requires Trim(raw, LineSpace) == ""
    ensures Assemble(text, pos, startup, parse, p)
            == Assemble(text, next, startup, parse, Progress(p.story, p.name, None, p.line + 1))
  {
    AssembleNext(text, pos, startup, parse, p, raw, next, Progress(p.story, p.name, None, p.line + 1));
  }

  /** The first non-blank line is the header: it names the story and starts it with the
      startup steps, whatever its first three bytes are. */
  lemma HeaderRead(text: string, pos: nat, raw: string, line: string, next: nat, startup: seq<Step>, parse: StepParser,
                   p: Progress, i: nat)
    requires pos <= |text| && ReadAt(text, pos, '\n') == Read(raw, false, next)
    requires Trim(raw, LineSpace) == line && |line| >= 3 && p.story.None? && i == p.line + 1
    ensures Assemble(text, pos, startup, parse, p)
            == Assemble(text, next, startup, parse,
                        Progress(Some(Story(startup)), Trim(line[3..], WhiteSpace), HeaderError(i, line), i))
  {
    FeedHeader(raw, next, startup, parse, p);
    AssembleNext(text, pos, startup, parse, p, raw, next,
                 Progress(Some(Story(startup)), Trim(line[3..], WhiteSpace), HeaderError(i, line), i));
  }

  /** A header of one or two bytes slices out of range. */
  lemma ShortHeaderRead(text: string, pos: nat, raw: string, line: string, next: nat, startup: seq<Step>, parse: StepParser, p: Progress)
    requires pos <= |text| && ReadAt(text, pos, '\n') == Read(raw, false, next)
    requires Trim(raw, LineSpace) == line && 0 < |line| < 3 && p.story.None?
    ensures Assemble(text, pos, startup, parse, p) == Parsed(None, p.name, Some(IndexOutOfRange), next)
  {
    AssembleDone(text, pos, startup, parse, p, raw, next, Parsed(None, p.name, Some(IndexOutOfRange), next));
  }

  /** A step line that parses is appended to the story. */
  lemma StepRead(text: string, pos: nat, raw: string, line: string, next: nat, startup: seq<Step>, parse: StepParser, p: Progress)
    requires pos <= |text| && ReadAt(text, pos, '\n') == Read(raw, false, next)
    requires Trim(raw, LineSpace) == line && line != "" && line != StoryDelimiter && parse(line).Ok?
    requires p.story.Some?
    ensures Assemble(text, pos, startup, parse, p)
            == Assemble(text, next, startup, parse,
                        Progress(Some(Story(p.story.value.steps + [parse(line).value])), p.name, None, p.line + 1))
  {
    FeedStep(raw, next, startup, parse, p, parse(line).value);
    AssembleNext(text, pos, startup, parse, p, raw, next,
                 Progress(Some(Story(p.story.value.steps + [parse(line).value])), p.name, None, p.line + 1));
  }

  /** A step line that does not parse ends the block with its error. */
  lemma StepFailsRead(text: string, pos: nat, raw: string, line: string, next: nat, startup: seq<Step>, parse: StepParser, p: Progress)
    requires pos <= |text| && ReadAt(text, pos, '\n') == Read(raw, false, next)
    requires Trim(raw, LineSpace) == line && line != "" && line != StoryDelimiter && parse(line).Err?
    requires p.story.Some?
    ensures Assemble(text, pos, startup, parse, p) == Parsed(p.story, p.name, Some(parse(line).error), next)
  {
    AssembleDone(text, pos, startup, parse, p, raw, next, Parsed(p.story, p.name, Some(parse(line).error), next));
  }

  /** The closing "===" returns the story, and EmptyStoryError when it has no steps at all. */
  lemma CloseRead(text: string, pos: nat, raw: string, next: nat, startup: seq<Step>, parse: StepParser, p: Progress)
    requires pos <= |text| && ReadAt(text, pos, '\n') == Read(raw, false, next)
    requires Trim(raw, LineSpace) == StoryDelimiter && p.story.Some?
    ensures Assemble(text, pos, startup, parse, p)
            == Parsed(p.story, p.name, if p.story.value.steps == [] then Some(EmptyStoryError) else None, next)
  {
    AssembleDone(text, pos, startup, parse, p, raw, next,
                 Parsed(p.story, p.name, if p.story.value.steps == [] then Some(EmptyStoryError) else None, next));
  }

  /** `ParseNext`'s loop over the raw lines `raws`, read one after the other from `pos`:
      each line is fed in turn until one makes the loop return. */
  function FeedAll(raws: seq<string>, pos: nat, startup: seq<Step>, parse: StepParser, p: Progress): Outcome
    decreases |raws|
  {
    if raws == [] then Next(pos, p)
    else
      match Feed(raws[0], false, pos + |raws[0]|, startup, parse, p)
      case Done(r) => Done(r)
      case Next(n, q) => FeedAll(raws[1..], n, startup, parse, q)
  }

  /** Reading lines that are there is feeding them: once the loop has gone through `raws`
      without returning, it goes on from where they end with what feeding them gives. */
  lemma {:induction false} AssembleLines(text: string, pos: nat, raws: seq<string>, startup: seq<Step>,
                                         parse: StepParser, p: Progress, n: nat, q: Progress)
    requires ReadsLines(text, pos, raws)
    requires FeedAll(raws, pos, startup, parse, p) == Next(n, q)
    ensures n <= |text|
    ensures Assemble(text, pos, startup, parse, p) == Assemble(text, n, startup, parse, q)
    decreases |raws|
  {
    if raws != [] {
      var next := pos + |raws[0]|;
      assert ReadAt(text, pos, '\n') == Read(raws[0], false, next);
      assert ReadsLines(text, next, raws[1..]);
      match Feed(raws[0], false, next, startup, parse, p)
      case Done(r) =>
        assert false;
      case Next(m, p') =>
        AssembleNext(text, pos, startup, parse, p, raws[0], next, p');
        AssembleLines(text, next, raws[1..], startup, parse, p', n, q);
    }
  }

  /** Inside a block: lines that are blank or parse as a step, none of them "===". */
  predicate BodyLines(parse: StepParser, ls: seq<string>)
    decreases |ls|
  {
    ls == [] || ((ls[0] == "" || (ls[0] != StoryDelimiter && parse(ls[0]).Ok?)) && BodyLines(parse, ls[1..]))
  }

  /** The steps those lines parse to, in order, blank lines skipped. */
  function BodySteps(parse: StepParser, ls: seq<string>): (steps: seq<Step>)
    requires BodyLines(parse, ls)
    ensures |steps| <= |ls|
    decreases |ls|
  {
    if ls == [] then []
    else if ls[0] == "" then BodySteps(parse, ls[1..])
    else [parse(ls[0]).value] + BodySteps(parse, ls[1..])
  }

  /** Feeding the lines of a block body: blank lines are skipped and every other line
      appends its step, in order; each counts as a line, and after any line the error of
      the header is gone. */
  lemma {:induction false} BodyFed(raws: seq<string>, ls: seq<string>, pos: nat, startup: seq<Step>,
                                   parse: StepParser, p: Progress)
    requires TrimsTo(raws, ls) && BodyLines(parse, ls) && p.story.Some?
    ensures FeedAll(raws, pos, startup, parse, p)
            == Next(RawsEnd(pos, raws),
                    Progress(Some(Story(p.story.value.steps + BodySteps(parse, ls))), p.name,
                             if ls == [] then p.err else None, p.line + |ls|))
    decreases |raws|
  {
    if ls == [] {
      assert p.story.value.steps + [] == p.story.value.steps;
    } else {
      var next := pos + |raws[0]|;
      var steps := if ls[0] == "" then p.story.value.steps else p.story.value.steps + [parse(ls[0]).value];
      var q := Progress(Some(Story(steps)), p.name, None, p.line + 1);
      assert Feed(raws[0], false, next, startup, parse, p) == Next(next, q) by {
        if ls[0] != "" {
          FeedStep(raws[0], next, startup, parse, p, parse(ls[0]).value);
        }
      }
      assert FeedAll(raws, pos, startup, parse, p) == FeedAll(raws[1..], next, startup, parse, q);
      BodyFed(raws[1..], ls[1..], next, startup, parse, q);
      assert steps + BodySteps(parse, ls[1..]) == p.story.value.steps + BodySteps(parse, ls);
    }
  }

  /** The story after a block body: its steps appended, every line counted. */
  function AfterBody(parse: StepParser, ls: seq<string>, p: Progress): Progress
    requires BodyLines(parse, ls) && p.story.Some?
  {
    Progress(Some(Story(p.story.value.steps + BodySteps(parse, ls))), p.name, if ls == [] then p.err else None, p.line + |ls|)
  }

  /** Reading the body lines of a block goes on after them with their steps appended. */
  lemma BodyRead(text: string, pos: nat, raws: seq<string>, ls: seq<string>, startup: seq<Step>,
                 parse: StepParser, p: Progress)
    requires ReadsLines(text, pos, raws) && TrimsTo(raws, ls) && BodyLines(parse, ls) && p.story.Some?
    ensures RawsEnd(pos, raws) <= |text|
    ensures Assemble(text, pos, startup, parse, p)
            == Assemble(text, RawsEnd(pos, raws), startup, parse, AfterBody(parse, ls, p))
  {
    BodyFed(raws, ls, pos, startup, parse, p);
    AssembleLines(text, pos, raws, startup, parse, p, RawsEnd(pos, raws), AfterBody(parse, ls, p));
  }

  /** A block whose header and body lines are read from `pos` on, the header leaving the
      reader at `from` and the body at `end`: the loop goes on from `end` with the story
      built from the startup steps and the body's steps, named by the header after its
      first three bytes. */
  lemma BlockRead(text: string, pos: nat, header: string, from: nat, raws: seq<string>, ls: seq<string>, end: nat,
                  startup: seq<Step>, parse: StepParser)
    requires pos <= |text| && ReadAt(text, pos, '\n') == Read(header, false, from)
    requires |Trim(header, LineSpace)| >= 3
    requires ReadsLines(text, from, raws) && RawsEnd(from, raws) == end && TrimsTo(raws, ls) && BodyLines(parse, ls)
    ensures end <= |text|
    ensures var line := Trim(header, LineSpace);
            Assemble(text, pos, startup, parse, Start)
            == Assemble(text, end, startup, parse,
                        Progress(Some(Story(startup + BodySteps(parse, ls))), Trim(line[3..], WhiteSpace),
                                 if ls == [] then HeaderError(1, line) else None, 1 + |ls|))
  {
    var line := Trim(header, LineSpace);
    var p := Progress(Some(Story(startup)), Trim(line[3..], WhiteSpace), HeaderError(1, line), 1);
    HeaderRead(text, pos, header, line, from, startup, parse, Start, 1);
    BodyRead(text, from, raws, ls, startup, parse, p);
    assert AfterBody(parse, ls, p)
           == Progress(Some(Story(startup + BodySteps(parse, ls))), Trim(line[3..], WhiteSpace),
                       if ls == [] then HeaderError(1, line) else None, 1 + |ls|);
  }

  /** A whole block: header, body, then "===" leaving the reader at `stop`. The story is the
      startup steps followed by the body's steps, named by the header after its first three
      bytes, and it fails with EmptyStoryError exactly when it has no steps at all, startup
      steps included. The header's own first three bytes do not matter: the error recorded
      for them is overwritten by the next read. Blank lines before the header are not part
      of `header`: each is skipped by BlankRead before this lemma applies. */
  lemma StoryRead(text: string, pos: nat, header: string, from: nat, raws: seq<string>, ls: seq<string>, end: nat,
                  close: string, stop: nat, startup: seq<Step>, parse: StepParser)
    requires pos <= |text| && ReadAt(text, pos, '\n') == Read(header, false, from)
    requires |Trim(header, LineSpace)| >= 3
    requires ReadsLines(text, from, raws) && RawsEnd(from, raws) == end && TrimsTo(raws, ls) && BodyLines(parse, ls)
    requires end <= |text| && ReadAt(text, end, '\n') == Read(close, false, stop)
    requires Trim(close, LineSpace) == StoryDelimiter
    ensures var steps := startup + BodySteps(parse, ls);
            Assemble(text, pos, startup, parse, Start)
            == Parsed(Some(Story(steps)), Trim(Trim(header, LineSpace)[3..], WhiteSpace),
                      if steps == [] then Some(EmptyStoryError) else None, stop)
  {
    var line := Trim(header, LineSpace);
    BlockRead(text, pos, header, from, raws, ls, end, startup, parse);
    var q := Progress(Some(Story(startup + BodySteps(parse, ls))), Trim(line[3..], WhiteSpace),
                      if ls == [] then HeaderError(1, line) else None, 1 + |ls|);
    CloseRead(text, end, close, stop, startup, parse, q);
  }

  /** A block that fails: header, body, then a line that does not parse as a step, read up
      to `stop`. Parsing stops there with that line's error and the story built so far. */
  lemma StoryFailsRead(text: string, pos: nat, header: string, from: nat, raws: seq<string>, ls: seq<string>, end: nat,
                       bad: string, stop: nat, startup: seq<Step>, parse: StepParser)
    requires pos <= |text| && ReadAt(text, pos, '\n') == Read(header, false, from)
    requires |Trim(header, LineSpace)| >= 3
    requires ReadsLines(text, from, raws) && RawsEnd(from, raws) == end && TrimsTo(raws, ls) && BodyLines(parse, ls)
    requires end <= |text| && ReadAt(text, end, '\n') == Read(bad, false, stop)
    requires var l := Trim(bad, LineSpace); l != "" && l != StoryDelimiter && parse(l).Err?
    ensures Assemble(text, pos, startup, parse, Start)
            == Parsed(Some(Story(startup + BodySteps(parse, ls))), Trim(Trim(header, LineSpace)[3..], WhiteSpace),
                      Some(parse(Trim(bad, LineSpace)).error), stop)
  {
    var line := Trim(header, LineSpace);
    BlockRead(text, pos, header, from, raws, ls, end, startup, parse);
    var q := Progress(Some(Story(startup + BodySteps(parse, ls))), Trim(line[3..], WhiteSpace),
                      if ls == [] then HeaderError(1, line) else None, 1 + |ls|);
    StepFailsRead(text, end, bad, Trim(bad, LineSpace), stop, startup, parse, q);
  }

  /** A block that the input ends inside: header and body, then no further newline. The
      story built so far comes back with no error; a last line without a newline is never
      parsed. */
  lemma StoryUnclosed(text: string, pos: nat, header: string, from: nat, raws: seq<string>, ls: seq<string>, end: nat,
                      startup: seq<Step>, parse: StepParser)
    requires pos <= |text| && ReadAt(text, pos, '\n') == Read(header, false, from)
    requires |Trim(header, LineSpace)| >= 3
    requires ReadsLines(text, from, raws) && RawsEnd(from, raws) == end && TrimsTo(raws, ls) && BodyLines(parse, ls)
    requires forall i :: end <= i < |text| ==> text[i] != '\n'
    ensures Assemble(text, pos, startup, parse, Start)
            == Parsed(Some(Story(startup + BodySteps(parse, ls))), Trim(Trim(header, LineSpace)[3..], WhiteSpace),
                      None, |text|)
  {
    var line := Trim(header, LineSpace);
    BlockRead(text, pos, header, from, raws, ls, end, startup, parse);
    var q := Progress(Some(Story(startup + BodySteps(parse, ls))), Trim(line[3..], WhiteSpace),
                      if ls == [] then HeaderError(1, line) else None, 1 + |ls|);
    EndOfInput(text, end, startup, parse, q);
  }

  /** "=== t", then "===": the story "t" with no steps, which without startup steps is
      EmptyStoryError. */
  lemma EmptyStoryExample(parse: StepParser)
    ensures Assemble("=== t\n===\n", 0, [], parse, Start) == Parsed(Some(Story([])), "t", Some(EmptyStoryError), 10)
  {
    var text := "=== t\n===\n";
    ExampleHeader(text);
    ExampleClose(text);
    StoryRead(text, 0, "=== t\n", 6, [], [], 6, "===\n", 10, [], parse);
  }

  /** The same block without the final newline: the closing "===" is never read, so the
      story "t" comes back with no steps and no error. */
  lemma UnclosedStoryExample(parse: StepParser)
    ensures Assemble("=== t\n===", 0, [], parse, Start) == Parsed(Some(Story([])), "t", None, 9)
  {
    var text := "=== t\n===";
    ExampleHeader(text);
    StoryUnclosed(text, 0, "=== t\n", 6, [], [], 6, [], parse);
  }

  /** The header "=== t" at the start of `text`: read up to its newline, it names the story "t". */
  lemma ExampleHeader(text: string)
    requires |text| > 6 && text[..6] == "=== t\n"
    ensures ReadAt(text, 0, '\n') == Read("=== t\n", false, 6)
    ensures Trim("=== t\n", LineSpace) == "=== t" && Trim("=== t"[3..], WhiteSpace) == "t"
  {
    assert text[0..5 + 1] == "=== t" + ['\n'];
    ReadThrough(text, 0, "=== t", '\n');
    assert "=== t"[3..] == " t";
  }

  /** The closing "===" of that block, read from its sixth byte. */
  lemma ExampleClose(text: string)
    requires text == "=== t\n===\n"
    ensures ReadAt(text, 6, '\n') == Read("===\n", false, 10) && Trim("===\n", LineSpace) == StoryDelimiter
  {
    assert text[6..6 + 3 + 1] == "===" + ['\n'];
    ReadThrough(text, 6, "===", '\n');
  }
}
