/** The byte cursor the builder reads from (`bufio.Reader` over a string) and the
    delimiter tokenizer built on it (`tokenParser.readToken`). A string reader's only error
    is end of input, so every read reports it as a flag. */
module Reader {
  import opened Text
  import opened Messages

  /** What one `ReadString(delim)` gives: the text read, whether it hit end of input before
      finding `delim`, and where the cursor is afterwards. */
  datatype Read = Read(s: string, eof: bool, next: nat)

  /** Index of the first `delim` at or after `pos`; `|text|` when there is none. */
  function Scan(text: string, pos: nat, delim: char): (k: nat)
    requires pos <= |text|
    ensures pos <= k <= |text|
    ensures k < |text| ==> text[k] == delim
    ensures forall i :: pos <= i < k ==> text[i] != delim
    decreases |text| - pos
  {
    if pos == |text| || text[pos] == delim then pos else Scan(text, pos + 1, delim)
  }

  /** The scan stops at `k` when `k` is the first `delim` or the end of the text. */
  lemma {:induction false} ScanStops(text: string, pos: nat, delim: char, k: nat)
    requires pos <= k <= |text|
    requires forall i :: pos <= i < k ==> text[i] != delim
    requires k < |text| ==> text[k] == delim
    ensures Scan(text, pos, delim) == k
    decreases k - pos
  {
    if pos < k {
      ScanStops(text, pos + 1, delim, k);
    }
  }

  /** `ReadString(delim)` from position `pos`: the text up to and including the first
      `delim`; without one, all the rest of the text together with end of input. */
  function ReadAt(text: string, pos: nat, delim: char): (r: Read)
    requires pos <= |text|
    ensures pos <= r.next <= |text| && r.s == text[pos..r.next]
    ensures r.eof <==> forall i :: pos <= i < |text| ==> text[i] != delim
    ensures r.eof ==> r.next == |text|
    ensures !r.eof ==> r.s != [] && r.s[|r.s| - 1] == delim && forall i :: 0 <= i < |r.s| - 1 ==> r.s[i] != delim
  {
    var k := Scan(text, pos, delim);
    if k == |text| then Read(text[pos..], true, |text|) else Read(text[pos..k + 1], false, k + 1)
  }

  class BufReader {
    const text: string
    var pos: nat

    ghost predicate Valid()
      reads this
    {
      pos <= |text|
    }

    constructor (text: string)
      ensures Valid() && this.text == text && pos == 0
    {
      this.text := text;
      pos := 0;
    }

    /** `bufio.Reader.ReadString`, one byte at a time. */
    method ReadString(delim: char) returns (s: string, eof: bool)
      requires Valid()
      modifies this
      ensures Valid()
      ensures ReadAt(text, old(pos), delim) == Read(s, eof, pos)
    {
      var i := pos;
      while i < |text| && text[i] != delim
        invariant pos <= i <= |text|
        invariant forall j :: pos <= j < i ==> text[j] != delim
      {
        i := i + 1;
      }
      assert Scan(text, pos, delim) == i by { ScanStops(text, pos, delim, i); }
      if i < |text| {
        s, eof := text[pos..i + 1], false;
        pos := i + 1;
      } else {
        s, eof := text[pos..], true;
        pos := |text|;
      }
    }
  }

  /** What one `readToken(start, end)` gives: the token, whether a read hit end of input,
      and where the cursor is afterwards. */
  datatype Token = Token(s: string, eof: bool, next: nat)

  /** `readToken(start, end)` from position `pos`. When `start` is not NUL, input through the
      first `start` is discarded, and without one the token is empty with end of input.
      Then the text through the first `end` is read: without an `end` it is returned as read,
      untrimmed, with end of input; otherwise it is returned with every leading and trailing
      `start` or `end` character stripped. */
  function TokenAt(text: string, pos: nat, start: char, end: char): (t: Token)
    requires pos <= |text|
    ensures pos <= t.next <= |text|
  {
    if start != NUL && ReadAt(text, pos, start).eof then Token("", true, |text|)
    else
      var from := if start != NUL then ReadAt(text, pos, start).next else pos;
      var b := ReadAt(text, from, end);
      if b.eof then Token(b.s, true, b.next)
      else Token(Trim(b.s, {start, end}), false, b.next)
  }

  /** A wrapper around the reader of one step line. */
  class TokenParser {
    const r: BufReader

    constructor (r: BufReader)
      ensures this.r == r
    {
      this.r := r;
    }

    /** `tokenParser.readToken`. */
    method ReadToken(start: char, end: char) returns (s: string, eof: bool)
      requires r.Valid()
      modifies r
      ensures r.Valid()
      ensures TokenAt(r.text, old(r.pos), start, end) == Token(s, eof, r.pos)
    {
      if start != NUL {
        var skipped, e := r.ReadString(start);
        if e {
          return "", true;
        }
      }
      s, eof := r.ReadString(end);
      if eof {
        return;
      }
      s := Trim(s, {start, end});
    }
  }

  /** Reading up to a delimiter stops at its first occurrence. */
  lemma ReadThrough(text: string, pos: nat, chunk: string, delim: char)
    requires pos + |chunk| < |text| && text[pos..pos + |chunk| + 1] == chunk + [delim]
    requires delim !in chunk
    ensures ReadAt(text, pos, delim) == Read(chunk + [delim], false, pos + |chunk| + 1)
  {
    var end := pos + |chunk|;
    forall i | pos <= i < end ensures text[i] != delim {
      assert text[i] == text[pos..end + 1][i - pos] == chunk[i - pos];
    }
    assert text[end] == text[pos..end + 1][|chunk|];
    ScanStops(text, pos, delim, end);
  }

  /** A delimited token: `lead`, the start delimiter, `body`, the end delimiter. When
      neither `lead` holds the start delimiter nor `body` either delimiter, the token is
      exactly `body` and the cursor ends just past the end delimiter. */
  lemma DelimitedToken(text: string, pos: nat, start: char, end: char, lead: string, body: string)
    requires start != NUL
    requires pos + |lead| + |body| + 2 <= |text|
    requires text[pos..pos + |lead| + |body| + 2] == lead + [start] + body + [end]
    requires start !in lead && start !in body && end !in body
    ensures TokenAt(text, pos, start, end) == Token(body, false, pos + |lead| + |body| + 2)
  {
    var n := |lead| + |body| + 2;
    var from := pos + |lead| + 1;
    var a := ReadAt(text, pos, start);
    assert !a.eof && a.next == from by {
      var whole := text[pos..pos + n];
      assert text[pos..from] == whole[..|lead| + 1] == lead + [start];
      ReadThrough(text, pos, lead, start);
    }
    var b := ReadAt(text, from, end);
    assert !b.eof && b.next == pos + n && Trim(b.s, {start, end}) == body by {
      var whole := text[pos..pos + n];
      assert text[from..pos + n] == whole[|lead| + 1..] == body + [end];
      ReadThrough(text, from, body, end);
      assert body != [] ==> body[0] in body && body[|body| - 1] in body;
      TrimOneDelimiter(body, end, {start, end});
    }
  }

  /** A bare token ahead of a separator: `word` followed by `end`, read with no start
      delimiter, gives `word` when it holds neither NUL nor `end`. */
  lemma BareToken(text: string, pos: nat, end: char, word: string)
    requires end != NUL
    requires pos + |word| < |text| && text[pos..pos + |word| + 1] == word + [end]
    requires NUL !in word && end !in word
    ensures TokenAt(text, pos, NUL, end) == Token(word, false, pos + |word| + 1)
  {
    ReadThrough(text, pos, word, end);
    assert word != [] ==> word[0] in word && word[|word| - 1] in word;
    TrimOneDelimiter(word, end, {NUL, end});
  }

  /** The last bare token of a text: `word` running to the end of input is returned as it
      is, together with end of input. */
  lemma LastBareToken(text: string, pos: nat, end: char, word: string)
    requires pos <= |text| && text[pos..] == word
    requires end !in word
    ensures TokenAt(text, pos, NUL, end) == Token(word, true, |text|)
  {
  }
}
