/**
 * The text handling behind the mode fields of the remote-agent dialog: Python's
 * `str.strip()`, `str.split(',')` and `', '.join(...)`, and the comprehension
 * `[mode.strip() for mode in text.split(',')]` that turns the text of an
 * "Input Modes" or "Output Modes" field back into a list of modes.
 */
module ModeText {

  /** Python's `str.isspace` on one character: what `str.strip()` removes. */
  predicate IsSpace(c: char) {
    c == ' ' || ('\t' <= c <= '\r') || ('\U{1c}' <= c <= '\U{1f}') ||
    c == '\U{85}' || c == '\U{a0}' || c == '\U{1680}' ||
    ('\U{2000}' <= c <= '\U{200a}') || c == '\U{2028}' || c == '\U{2029}' ||
    c == '\U{202f}' || c == '\U{205f}' || c == '\U{3000}'
  }

  /** Neither end of `s` is whitespace: `s.strip()` would leave it alone. */
  predicate IsStripped(s: string) {
    s == [] || (!IsSpace(s[0]) && !IsSpace(s[|s| - 1]))
  }

  /** Python's `s.lstrip()`: the longest suffix of `s` that does not start with whitespace. */
  function TrimStart(s: string): (t: string)
    ensures |t| <= |s| && t == s[|s| - |t|..]
    ensures t == [] || !IsSpace(t[0])
  {
    if |s| > 0 && IsSpace(s[0]) then TrimStart(s[1..]) else s
  }

  /** Python's `s.rstrip()`: the longest prefix of `s` that does not end with whitespace. */
  function TrimEnd(s: string): (t: string)
    ensures |t| <= |s| && t == s[..|t|]
    ensures t == [] || !IsSpace(t[|t| - 1])
  {
    if |s| > 0 && IsSpace(s[|s| - 1]) then TrimEnd(s[..|s| - 1]) else s
  }

  /** What `TrimStart` cuts off is whitespace. */
  lemma {:induction false} TrimStartCutsSpace(s: string)
    ensures forall i :: 0 <= i < |s| - |TrimStart(s)| ==> IsSpace(s[i])
  {
    if |s| > 0 && IsSpace(s[0]) {
      TrimStartCutsSpace(s[1..]);
      forall i | 1 <= i < |s| - |TrimStart(s)| ensures IsSpace(s[i]) {
        assert s[i] == s[1..][i - 1];
      }
    }
  }

  /** What `TrimEnd` cuts off is whitespace. */
  lemma {:induction false} TrimEndCutsSpace(s: string)
    ensures forall i :: |TrimEnd(s)| <= i < |s| ==> IsSpace(s[i])
  {
    if |s| > 0 && IsSpace(s[|s| - 1]) {
      TrimEndCutsSpace(s[..|s| - 1]);
    }
  }

  /** How many whitespace characters `s` starts with. */
  function Lead(s: string): (n: nat)
    ensures n <= |s|
  {
    |s| - |TrimStart(s)|
  }

  /** Python's `s.strip()`: `s` with its leading and trailing whitespace removed. */
  function Strip(s: string): (t: string)
    ensures IsStripped(t)
  {
    TrimEnd(TrimStart(s))
  }

  /**
   * What `Strip` cuts off is whitespace and nothing else: the result is the piece
   * of `s` after its `Lead(s)` leading whitespace characters, and everything after
   * that piece is whitespace too.
   */
  lemma StripIsTrim(s: string)
    ensures var t := Strip(s);
      Lead(s) + |t| <= |s| && t == s[Lead(s)..Lead(s) + |t|] &&
      (forall i :: 0 <= i < Lead(s) ==> IsSpace(s[i])) &&
      (forall i :: Lead(s) + |t| <= i < |s| ==> IsSpace(s[i]))
  {
    var u := TrimStart(s);
    var t := TrimEnd(u);
    var lead := |s| - |u|;
    assert u == s[lead..];
    assert t == u[..|t|];
    assert forall i :: 0 <= i < lead ==> IsSpace(s[i]) by {
      TrimStartCutsSpace(s);
    }
    assert forall i :: lead + |t| <= i < |s| ==> IsSpace(s[i]) by {
      TrimEndCutsSpace(u);
      forall i | lead + |t| <= i < |s| ensures IsSpace(s[i]) {
        assert s[i] == u[i - lead];
      }
    }
    assert t == s[lead..lead + |t|] by {
      forall j | 0 <= j < |t| ensures t[j] == s[lead + j] {
        assert t[j] == u[j];
      }
    }
  }

  /** Every character that `Strip` keeps comes from its argument. */
  lemma StripKeepsOnlyOwnCharacters(s: string, c: char)
    requires c in Strip(s)
    ensures c in s
  {
    var t := Strip(s);
    StripIsTrim(s);
    var j :| 0 <= j < |t| && t[j] == c;
    assert s[Lead(s) + j] == c;
  }

  /** Stripping a string that is already stripped changes nothing. */
  lemma StripStripped(s: string)
    requires IsStripped(s)
    ensures Strip(s) == s
  {
    assert TrimStart(s) == s;
  }

  /** Whitespace in front of a string makes no difference to its strip. */
  lemma StripSkipsLeadingSpace(c: char, s: string)
    requires IsSpace(c)
    ensures Strip([c] + s) == Strip(s)
  {
    assert ([c] + s)[1..] == s;
  }

  /** The number of commas in `s`. */
  function CommaCount(s: string): nat {
    multiset(s)[',']
  }

  /** The index of the first comma of `s`, or `|s|` when there is none. */
  function FirstComma(s: string): (i: nat)
    ensures i <= |s|
    ensures forall j :: 0 <= j < i ==> s[j] != ','
    ensures i < |s| ==> s[i] == ','
  {
    if s == [] || s[0] == ',' then 0 else 1 + FirstComma(s[1..])
  }

  /** Python's `s.split(',')`: the pieces of `s` between commas, in order. */
  function Split(s: string): (parts: seq<string>)
    ensures |parts| > 0
    decreases |s|
  {
    var i := FirstComma(s);
    if i == |s| then [s] else [s[..i]] + Split(s[i + 1..])
  }

  /**
   * There is always one piece more than there are commas, so `""` gives `[""]`,
   * and no piece holds a comma.
   */
  lemma {:induction false} SplitPieces(s: string)
    ensures |Split(s)| == CommaCount(s) + 1
    ensures forall k :: 0 <= k < |Split(s)| ==> ',' !in Split(s)[k]
    decreases |s|
  {
    var i := FirstComma(s);
    if i == |s| {
      assert ',' !in s;
    } else {
      var rest := s[i + 1..];
      SplitPieces(rest);
      assert s == s[..i] + [s[i]] + rest;
      assert ',' !in s[..i];
      assert multiset(s) == multiset(s[..i]) + multiset{','} + multiset(rest);
      assert Split(s) == [s[..i]] + Split(rest);
    }
  }

  /** Python's `sep.join(parts)`. */
  function Join(sep: string, parts: seq<string>): string {
    if |parts| == 0 then ""
    else if |parts| == 1 then parts[0]
    else parts[0] + sep + Join(sep, parts[1..])
  }

  /** The text the dialog shows for a list of modes: `', '.join(modes)`. */
  function JoinModes(modes: seq<string>): string {
    Join(", ", modes)
  }

  /**
   * The mode parser of the dialog: `[mode.strip() for mode in text.split(',')]`.
   * One mode per comma-separated piece, each of them stripped and free of commas.
   */
  function ParseModes(text: string): (modes: seq<string>)
    ensures |modes| == CommaCount(text) + 1
    ensures forall k :: 0 <= k < |modes| ==> IsStripped(modes[k]) && ',' !in modes[k]
  {
    var parts := Split(text);
    var modes := seq(|parts|, k requires 0 <= k < |parts| => Strip(parts[k]));
    SplitPieces(text);
    assert forall k :: 0 <= k < |modes| ==> ',' !in modes[k] by {
      forall k | 0 <= k < |modes| ensures ',' !in modes[k] {
        if ',' in modes[k] {
          StripKeepsOnlyOwnCharacters(parts[k], ',');
        }
      }
    }
    modes
  }

  /** Joining a piece in front of a non-empty list puts the separator between them. */
  lemma JoinCons(sep: string, first: string, rest: seq<string>)
    requires |rest| > 0
    ensures Join(sep, [first] + rest) == first + sep + Join(sep, rest)
  {
    assert ([first] + rest)[1..] == rest;
  }

  /** Each parsed mode is the strip of the piece at the same place. */
  lemma ParsedPieces(text: string)
    ensures |ParseModes(text)| == |Split(text)|
    ensures forall k :: 0 <= k < |Split(text)| ==> ParseModes(text)[k] == Strip(Split(text)[k])
  {
  }

  /** Splitting then joining with commas gives back the text. */
  lemma {:induction false} JoinSplit(s: string)
    ensures Join(",", Split(s)) == s
    decreases |s|
  {
    var i := FirstComma(s);
    if i == |s| {
      assert Split(s) == [s];
    } else {
      var head, rest := s[..i], s[i + 1..];
      var restParts := Split(rest);
      SplitAtFirstComma(s);
      JoinSplit(rest);
      JoinCons(",", head, restParts);
      Recompose(s, i);
    }
  }

  /** Where the first comma is, `Split` cuts. */
  lemma SplitAtFirstComma(s: string)
    requires FirstComma(s) < |s|
    ensures Split(s) == [s[..FirstComma(s)]] + Split(s[FirstComma(s) + 1..])
  {
  }

  /** A text is the part before one of its commas, the comma, and the part after. */
  lemma Recompose(s: string, i: nat)
    requires i < |s| && s[i] == ','
    ensures s[..i] + "," + s[i + 1..] == s
  {
    assert s[i..] == [','] + s[i + 1..];
    assert s == s[..i] + s[i..];
  }

  /** A comma-free prefix is split off as the first piece. */
  lemma SplitAtComma(a: string, b: string)
    requires ',' !in a
    ensures Split(a + "," + b) == [a] + Split(b)
  {
    var s := a + "," + b;
    assert s[|a|] == ',';
    assert forall j :: 0 <= j < |a| ==> s[j] == a[j];
    assert FirstComma(s) == |a|;
    assert s[..|a|] == a && s[|a| + 1..] == b;
  }

  /** A character other than a comma in front of a text joins its first piece. */
  lemma SplitCons(c: char, s: string)
    requires c != ','
    ensures var parts := Split(s);
      Split([c] + s) == [[c] + parts[0]] + parts[1..]
  {
    var cs := [c] + s;
    assert cs[1..] == s;
    var i := FirstComma(s);
    assert FirstComma(cs) == i + 1;
    if i < |s| {
      assert cs[..i + 1] == [c] + s[..i];
      assert cs[i + 2..] == s[i + 1..];
    }
  }

  /**
   * The pieces of `', '.join(modes)` are the modes themselves, each but the first
   * preceded by the space of the separator, as long as no mode holds a comma.
   */
  lemma {:induction false} SplitJoinedModes(modes: seq<string>)
    requires |modes| > 0
    requires forall k :: 0 <= k < |modes| ==> ',' !in modes[k]
    ensures var parts := Split(JoinModes(modes));
      |parts| == |modes| && parts[0] == modes[0] &&
      forall k :: 1 <= k < |modes| ==> parts[k] == " " + modes[k]
    decreases |modes|
  {
    if |modes| == 1 {
      SplitNoComma(modes[0]);
    } else {
      var tail := JoinModes(modes[1..]);
      SplitJoinedModes(modes[1..]);
      var tailParts := Split(tail);
      assert JoinModes(modes) == modes[0] + "," + ([' '] + tail) by {
        assert JoinModes(modes) == modes[0] + ", " + tail;
      }
      SplitAtComma(modes[0], [' '] + tail);
      SplitCons(' ', tail);
      var parts := Split(JoinModes(modes));
      assert parts == [modes[0]] + ([[' '] + tailParts[0]] + tailParts[1..]);
      forall k | 1 <= k < |modes| ensures parts[k] == " " + modes[k] {
        if k > 1 {
          assert parts[k] == tailParts[k - 1];
        }
      }
    }
  }

  /** A text without commas is a single piece. */
  lemma SplitNoComma(a: string)
    requires ',' !in a
    ensures Split(a) == [a]
  {
    assert FirstComma(a) == |a|;
  }

  /** A piece of the joined text, with or without the separator's space, strips back to its mode. */
  lemma StripPiece(piece: string, mode: string)
    requires IsStripped(mode)
    requires piece == mode || piece == [' '] + mode
    ensures Strip(piece) == mode
  {
    StripStripped(mode);
    if piece != mode {
      StripSkipsLeadingSpace(' ', mode);
    }
  }

  /**
   * Round trip of the mode fields: parsing the text the dialog shows for a
   * non-empty list of stripped, comma-free modes gives that list back.
   */
  lemma ParseJoinedModes(modes: seq<string>)
    requires |modes| > 0
    requires forall k :: 0 <= k < |modes| ==> IsStripped(modes[k]) && ',' !in modes[k]
    ensures ParseModes(JoinModes(modes)) == modes
  {
    var text := JoinModes(modes);
    SplitJoinedModes(modes);
    var parts := Split(text);
    var parsed := ParseModes(text);
    ParsedPieces(text);
    forall k | 0 <= k < |modes| ensures parsed[k] == modes[k] {
      StripPiece(parts[k], modes[k]);
    }
  }

  /** The empty list is the exception: it is shown as `""`, which parses to one empty mode. */
  lemma ParseEmptyModes()
    ensures JoinModes([]) == ""
    ensures ParseModes(JoinModes([])) == [""]
  {
    assert FirstComma("") == 0;
  }
}
