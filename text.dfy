/** The parts of Go's `strings` package that the DSL parser relies on:
    searching for a byte, `strings.Trim` with a cut set, and `strings.Split`. */
module Text {

  /** Position of the first `c` in `s`; `|s|` when `s` holds no `c`. */
  function IndexOf(s: string, c: char): (k: nat)
    ensures k <= |s|
    ensures k < |s| ==> s[k] == c
    ensures forall i :: 0 <= i < k ==> s[i] != c
    ensures k == |s| <==> c !in s
  {
    if s == [] then 0 else if s[0] == c then 0 else 1 + IndexOf(s[1..], c)
  }

  /** Drops the leading characters that belong to `cut`. */
  function TrimLeft(s: string, cut: set<char>): (r: string)
    ensures |r| <= |s|
  {
    if s != [] && s[0] in cut then TrimLeft(s[1..], cut) else s
  }

  /** Drops the trailing characters that belong to `cut`. */
  function TrimRight(s: string, cut: set<char>): (r: string)
    ensures |r| <= |s|
  {
    if s != [] && s[|s| - 1] in cut then TrimRight(s[..|s| - 1], cut) else s
  }

  /** `strings.Trim(s, cutset)`: both ends stripped of the characters in `cut`. */
  function Trim(s: string, cut: set<char>): (r: string)
    ensures |r| <= |s|
  {
    TrimRight(TrimLeft(s, cut), cut)
  }

  /** Trimming on the left drops only cut characters and keeps a suffix that does not
      start with one. */
  lemma {:induction false} TrimLeftSuffix(s: string, cut: set<char>)
    ensures var r := TrimLeft(s, cut);
            r == s[|s| - |r|..] && (r != [] ==> r[0] !in cut)
            && forall i :: 0 <= i < |s| - |r| ==> s[i] in cut
    decreases |s|
  {
    if s != [] && s[0] in cut {
      TrimLeftSuffix(s[1..], cut);
      var r := TrimLeft(s, cut);
      forall i | 1 <= i < |s| - |r| ensures s[i] in cut {
        assert s[i] == s[1..][i - 1];
      }
    }
  }

  /** Trimming on the right drops only cut characters and keeps a prefix that does not
      end with one. */
  lemma {:induction false} TrimRightPrefix(s: string, cut: set<char>)
    ensures var r := TrimRight(s, cut);
            r == s[..|r|] && (r != [] ==> r[|r| - 1] !in cut)
            && forall i :: |r| <= i < |s| ==> s[i] in cut
    decreases |s|
  {
    if s != [] && s[|s| - 1] in cut {
      TrimRightPrefix(s[..|s| - 1], cut);
      var r := TrimRight(s, cut);
      forall i | |r| <= i < |s| - 1 ensures s[i] in cut {
        assert s[i] == s[..|s| - 1][i];
      }
    }
  }

  /** A trimmed text is the piece of the original that starts at `a`, the number of
      characters trimmed on the left; every character outside it is a cut character, and a
      non-empty result has no cut character at either end. */
  lemma TrimEnds(s: string, cut: set<char>)
    ensures var r := Trim(s, cut);
            var a := |s| - |TrimLeft(s, cut)|;
            a + |r| <= |s| && r == s[a..a + |r|]
            && (forall i :: 0 <= i < a ==> s[i] in cut)
            && (forall i :: a + |r| <= i < |s| ==> s[i] in cut)
            && (r != [] ==> r[0] !in cut && r[|r| - 1] !in cut)
  {
    var l := TrimLeft(s, cut);
    TrimLeftSuffix(s, cut);
    TrimRightPrefix(l, cut);
    var r := TrimRight(l, cut);
    var a := |s| - |l|;
    assert r == s[a..a + |r|];
    forall i | a + |r| <= i < |s| ensures s[i] in cut {
      assert s[i] == l[i - a];
    }
    if r != [] {
      assert r[0] == l[0];
    }
  }

  /** A text made only of cut characters trims to nothing. */
  lemma {:induction false} TrimAllCut(s: string, cut: set<char>)
    requires forall i :: 0 <= i < |s| ==> s[i] in cut
    ensures Trim(s, cut) == []
    decreases |s|
  {
    if s != [] {
      assert s[0] in cut;
      TrimAllCut(s[1..], cut);
      assert TrimLeft(s, cut) == TrimLeft(s[1..], cut);
    }
  }

  /** Trimming leaves alone a string that neither starts nor ends with a cut character. */
  lemma TrimUntouched(s: string, cut: set<char>)
    requires s == [] || (s[0] !in cut && s[|s| - 1] !in cut)
    ensures Trim(s, cut) == s
  {
  }

  /** A text that neither starts nor ends with a cut character, followed by one cut
      character, trims back to the text. */
  lemma TrimOneDelimiter(s: string, c: char, cut: set<char>)
    requires s == [] || (s[0] !in cut && s[|s| - 1] !in cut)
    requires c in cut
    ensures Trim(s + [c], cut) == s
  {
    if s == [] {
      assert TrimLeft([c], cut) == TrimLeft([c][1..], cut);
    } else {
      assert (s + [c])[0] !in cut;
      assert TrimLeft(s + [c], cut) == s + [c];
      assert (s + [c])[..|s + [c]| - 1] == s;
      assert TrimRight(s + [c], cut) == TrimRight(s, cut);
      assert s[|s| - 1] !in cut;
    }
  }

  /** The pieces joined back with `sep` between each pair. */
  function Join(parts: seq<string>, sep: char): string
  {
    if |parts| == 0 then ""
    else if |parts| == 1 then parts[0]
    else parts[0] + [sep] + Join(parts[1..], sep)
  }

  /** `strings.Split(s, sep)` for a one-byte separator: the text between separators,
      in order; the empty text gives one empty piece. */
  function Split(s: string, sep: char): (parts: seq<string>)
    ensures |parts| >= 1
    ensures forall i :: 0 <= i < |parts| ==> sep !in parts[i]
    ensures Join(parts, sep) == s
    decreases |s|
  {
    var k := IndexOf(s, sep);
    if k == |s| then [s]
    else
      var rest := Split(s[k + 1..], sep);
      assert Join([s[..k]] + rest, sep) == s[..k] + [sep] + Join(rest, sep) by {
        assert ([s[..k]] + rest)[1..] == rest;
      }
      assert s == s[..k] + [sep] + s[k + 1..];
      [s[..k]] + rest
  }

  /** Splitting undoes joining: pieces free of the separator come back unchanged. */
  lemma {:induction false} SplitJoin(parts: seq<string>, sep: char)
    requires |parts| >= 1
    requires forall i :: 0 <= i < |parts| ==> sep !in parts[i]
    ensures Split(Join(parts, sep), sep) == parts
    decreases |parts|
  {
    if |parts| == 1 {
      assert IndexOf(parts[0], sep) == |parts[0]|;
    } else {
      var s := Join(parts, sep);
      var rest := Join(parts[1..], sep);
      assert s == parts[0] + [sep] + rest;
      assert IndexOf(s, sep) == |parts[0]| by {
        assert s[|parts[0]|] == sep;
        forall i | 0 <= i < |parts[0]| ensures s[i] != sep {
          assert s[i] == parts[0][i];
        }
      }
      assert s[..|parts[0]|] == parts[0];
      assert s[|parts[0]| + 1..] == rest;
      SplitJoin(parts[1..], sep);
    }
  }
}
