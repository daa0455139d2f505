/**
 * The input loop of `main` (draw.py:275-282): each line loses everything from
 * the first `#` on and its surrounding whitespace; blank results are skipped;
 * every other line must split into exactly two numbers, or the whole input is
 * rejected. Converting a token to a number (Python's `float`) is a parameter.
 */
module InputFilter {
  import opened Wrappers
  import opened Geometry

  /** The characters Python's `str.strip()` and `str.split()` treat as whitespace. */
  predicate IsSpace(c: char) {
    var n := c as int;
    (9 <= n <= 13) || (28 <= n <= 32) || n == 0x85 || n == 0xA0 || n == 0x1680 ||
    (0x2000 <= n <= 0x200A) || n == 0x2028 || n == 0x2029 || n == 0x202F ||
    n == 0x205F || n == 0x3000
  }

  /** `s.split('#', maxsplit=1)[0]`: everything before the first `#`. */
  function BeforeHash(s: string): string {
    if s == [] || s[0] == '#' then [] else [s[0]] + BeforeHash(s[1..])
  }

  /** `BeforeHash` is the longest prefix without `#`. */
  lemma {:induction false} BeforeHashFacts(s: string)
    ensures var r := BeforeHash(s);
      r <= s && '#' !in r && (|r| < |s| ==> s[|r|] == '#')
  {
    if s != [] && s[0] != '#' {
      BeforeHashFacts(s[1..]);
    }
  }

  /** `s.lstrip()`: drop the leading whitespace. */
  function TrimLeft(s: string): (r: string)
    ensures |r| <= |s|
  {
    if s != [] && IsSpace(s[0]) then TrimLeft(s[1..]) else s
  }

  /** `lstrip` drops exactly the leading whitespace. */
  lemma {:induction false} TrimLeftFacts(s: string)
    ensures var r := TrimLeft(s);
      r == s[|s| - |r|..] && (r == [] || !IsSpace(r[0])) &&
      (forall k :: 0 <= k < |s| - |r| ==> IsSpace(s[k]))
  {
    if s != [] && IsSpace(s[0]) {
      TrimLeftFacts(s[1..]);
    }
  }

  /** `s.rstrip()`: drop the trailing whitespace. */
  function TrimRight(s: string): string {
    if s != [] && IsSpace(s[|s| - 1]) then TrimRight(s[..|s| - 1]) else s
  }

  /** `rstrip` drops exactly the trailing whitespace. */
  lemma {:induction false} TrimRightFacts(s: string)
    ensures var r := TrimRight(s);
      r <= s && (r == [] || !IsSpace(r[|r| - 1])) &&
      (forall k :: |r| <= k < |s| ==> IsSpace(s[k]))
  {
    if s != [] && IsSpace(s[|s| - 1]) {
      TrimRightFacts(s[..|s| - 1]);
    }
  }

  /** `s.strip()`. */
  function Strip(s: string): string {
    TrimRight(TrimLeft(s))
  }

  /**
   * `strip` keeps one contiguous piece `s[a..a + |r|]` of the line with no
   * whitespace at either end, and drops only whitespace.
   */
  lemma StripFacts(s: string) returns (a: nat)
    ensures var r := Strip(s);
      a + |r| <= |s| && r == s[a..a + |r|] &&
      (r != [] ==> !IsSpace(r[0]) && !IsSpace(r[|r| - 1])) &&
      (forall k :: 0 <= k < a || a + |r| <= k < |s| ==> IsSpace(s[k]))
  {
    var t := TrimLeft(s);
    var r := TrimRight(t);
    TrimLeftFacts(s);
    TrimRightFacts(t);
    a := |s| - |t|;
    forall k | a + |r| <= k < |s| ensures IsSpace(s[k]) {
      assert s[k] == t[k - a];
    }
    if r != [] {
      assert r[0] == t[0];
    }
  }

  /** The piece of an input line that is parsed (draw.py:278). */
  function Clean(line: string): string {
    Strip(BeforeHash(line))
  }

  /** The cleaned lines that survive the blank-line skip, in input order. */
  function Kept(input: seq<string>): seq<string> {
    if input == [] then []
    else
      var c := Clean(input[|input| - 1]);
      Kept(input[..|input| - 1]) + (if c == [] then [] else [c])
  }

  /** A line as `main` hands it on: non-empty, no `#`, no whitespace at either end. */
  predicate Tidy(s: string) {
    s != [] && '#' !in s && !IsSpace(s[0]) && !IsSpace(s[|s| - 1])
  }

  /** A cleaned line is empty or tidy. */
  lemma CleanFacts(line: string)
    ensures Clean(line) == [] || Tidy(Clean(line))
  {
    var h := BeforeHash(line);
    var c := Clean(line);
    BeforeHashFacts(line);
    var a := StripFacts(h);
    forall j | 0 <= j < |c| ensures c[j] != '#' {
      assert c[j] == h[a + j];
    }
  }

  /** Every kept line is tidy. */
  lemma {:induction false} KeptFacts(input: seq<string>, k: nat)
    requires k < |Kept(input)|
    ensures Tidy(Kept(input)[k])
  {
    var n := |input| - 1;
    var front := input[..n];
    assert input[..n + 1] == input;
    KeptStep(input, n);
    if k < |Kept(front)| {
      KeptFacts(front, k);
      assert Kept(input)[k] == Kept(front)[k];
    } else {
      CleanFacts(input[n]);
      assert Kept(input)[k] == Clean(input[n]);
    }
  }

  /** Reading a further line appends at most its cleaned form. */
  lemma KeptStep(input: seq<string>, i: nat)
    requires i < |input|
    ensures Kept(input[..i + 1]) ==
      Kept(input[..i]) + (if Clean(input[i]) == [] then [] else [Clean(input[i])])
  {
    assert input[..i + 1][..i] == input[..i];
  }

  /** The lines kept from a prefix of the input are a prefix of those kept from all of it. */
  lemma {:induction false} KeptPrefix(input: seq<string>, i: nat)
    requires i <= |input|
    ensures Kept(input[..i]) <= Kept(input)
    decreases |input| - i
  {
    if i < |input| {
      KeptPrefix(input, i + 1);
      KeptStep(input, i);
    } else {
      assert input[..i] == input;
    }
  }

  /** The longest prefix without whitespace. */
  function Word(s: string): (r: string)
    ensures |r| <= |s|
    ensures s != [] && !IsSpace(s[0]) ==> r != []
  {
    if s == [] || IsSpace(s[0]) then [] else [s[0]] + Word(s[1..])
  }

  /** `Word` is the longest prefix without whitespace. */
  lemma {:induction false} WordFacts(s: string)
    ensures var r := Word(s);
      r <= s && (forall j :: 0 <= j < |r| ==> !IsSpace(r[j])) && (|r| < |s| ==> IsSpace(s[|r|]))
  {
    if s != [] && !IsSpace(s[0]) {
      WordFacts(s[1..]);
    }
  }

  /** `s.split()`: the maximal runs of non-whitespace, in order. */
  function Tokens(s: string): seq<string>
    decreases |s|
  {
    var t := TrimLeft(s);
    if t == [] then []
    else
      TrimLeftFacts(s);
      var w := Word(t);
      [w] + Tokens(t[|w|..])
  }

  /** A non-empty run of non-whitespace. */
  predicate IsWord(w: string) {
    w != [] && forall j :: 0 <= j < |w| ==> !IsSpace(w[j])
  }

  /** Every token is non-empty and free of whitespace. */
  lemma {:induction false} TokensFacts(s: string)
    ensures forall k :: 0 <= k < |Tokens(s)| ==> IsWord(Tokens(s)[k])
    decreases |s|
  {
    var t := TrimLeft(s);
    if t != [] {
      TrimLeftFacts(s);
      var w := Word(t);
      WordFacts(t);
      var rest := Tokens(t[|w|..]);
      TokensFacts(t[|w|..]);
      assert Tokens(s) == [w] + rest;
      assert IsWord(w);
      forall k | 1 <= k < |rest| + 1 ensures ([w] + rest)[k] == rest[k - 1] {
      }
    }
  }

  /** The pieces between whitespace characters, empty pieces included: `s` cut at every whitespace character. */
  function Pieces(s: string): (r: seq<string>)
    ensures r != []
  {
    if s == [] then [[]]
    else if IsSpace(s[0]) then [[]] + Pieces(s[1..])
    else
      var rest := Pieces(s[1..]);
      [[s[0]] + rest[0]] + rest[1..]
  }

  /** The non-empty strings of `pieces`, in order. */
  function NonEmpty(pieces: seq<string>): seq<string> {
    if pieces == [] then []
    else (if pieces[0] == [] then [] else [pieces[0]]) + NonEmpty(pieces[1..])
  }

  /** The first piece is the leading word; the rest are the pieces after the whitespace that ends it. */
  lemma {:induction false} PiecesWord(t: string)
    ensures var w := Word(t);
      Pieces(t) == [w] + (if |w| == |t| then [] else Pieces(t[|w| + 1..]))
  {
    if t != [] && !IsSpace(t[0]) {
      PiecesWord(t[1..]);
      var w1 := Word(t[1..]);
      if |w1| < |t[1..]| {
        assert t[1..][|w1| + 1..] == t[|w1| + 2..];
      }
    }
  }

  /** Leading whitespace only adds empty pieces. */
  lemma {:induction false} PiecesTrimLeft(s: string)
    ensures NonEmpty(Pieces(s)) == NonEmpty(Pieces(TrimLeft(s)))
  {
    if s != [] && IsSpace(s[0]) {
      PiecesTrimLeft(s[1..]);
      assert ([[]] + Pieces(s[1..]))[1..] == Pieces(s[1..]);
    }
  }

  /** `Tokens` is `str.split()`: the non-empty pieces of `s` cut at every whitespace character, in order. */
  lemma {:induction false} TokensArePieces(s: string)
    ensures Tokens(s) == NonEmpty(Pieces(s))
    decreases |s|
  {
    PiecesTrimLeft(s);
    var t := TrimLeft(s);
    if t != [] {
      TrimLeftFacts(s);
      var w := Word(t);
      WordFacts(t);
      PiecesWord(t);
      var rest := t[|w|..];
      TokensArePieces(rest);
      assert Tokens(s) == [w] + Tokens(rest);
      if |w| == |t| {
        assert rest == [];
        assert NonEmpty(Pieces(t)) == [w] + NonEmpty([]);
      } else {
        assert Pieces(t) == [w] + Pieces(t[|w| + 1..]);
        assert NonEmpty(Pieces(t)) == [w] + NonEmpty(Pieces(t[|w| + 1..]));
        assert rest[1..] == t[|w| + 1..];
        assert Pieces(rest) == [[]] + Pieces(rest[1..]);
        assert NonEmpty(Pieces(rest)) == NonEmpty(Pieces(rest[1..]));
      }
    }
  }

  /** `x, y = map(float, line.split())`: exactly two tokens, both numbers. */
  function ParseLine(s: string, toReal: string -> Option<real>): Option<Point> {
    var ts := Tokens(s);
    if |ts| != 2 then None
    else match (toReal(ts[0]), toReal(ts[1]))
      case (Some(x), Some(y)) => Some(Point(x, y))
      case _ => None
  }

  /** What reading line `i` does to the points parsed so far. */
  lemma ReadStep(input: seq<string>, i: nat, kept: seq<string>, line: seq<Point>,
                 toReal: string -> Option<real>)
    requires i < |input| && kept == Kept(input[..i]) && |line| == |kept|
    requires forall k :: 0 <= k < |line| ==> ParseLine(kept[k], toReal) == Some(line[k])
    ensures var c := Clean(input[i]);
      (c == [] ==> Kept(input[..i + 1]) == kept) &&
      (c != [] ==> Kept(input[..i + 1]) == kept + [c]) &&
      (c != [] && ParseLine(c, toReal).Some? ==>
        forall k :: 0 <= k < |line| + 1 ==>
          ParseLine((kept + [c])[k], toReal) == Some((line + [ParseLine(c, toReal).value])[k])) &&
      (c != [] && ParseLine(c, toReal).None? ==>
        exists k :: 0 <= k < |Kept(input)| && ParseLine(Kept(input)[k], toReal).None?)
  {
    var c := Clean(input[i]);
    KeptStep(input, i);
    if c != [] && ParseLine(c, toReal).None? {
      KeptPrefix(input, i + 1);
      assert Kept(input)[|kept|] == c;
    }
  }

  /**
   * The loop of `main`: one point per kept line, in order, or `None` (the
   * source's uncaught `ValueError`) as soon as one kept line does not parse.
   */
  method ReadPoints(input: seq<string>, toReal: string -> Option<real>) returns (pts: Option<seq<Point>>)
    ensures pts.None? <==> exists k :: 0 <= k < |Kept(input)| && ParseLine(Kept(input)[k], toReal).None?
    ensures pts.Some? ==> |pts.value| == |Kept(input)|
    ensures pts.Some? ==>
      forall k :: 0 <= k < |pts.value| ==> ParseLine(Kept(input)[k], toReal) == Some(pts.value[k])
  {
    var line: seq<Point> := [];
    ghost var kept: seq<string> := [];
    for i := 0 to |input|
      invariant kept == Kept(input[..i])
      invariant |line| == |kept|
      invariant forall k :: 0 <= k < |line| ==> ParseLine(kept[k], toReal) == Some(line[k])
    {
      var parsed := Clean(input[i]);
      ReadStep(input, i, kept, line, toReal);
      if parsed == [] {
        continue;
      }
      var p := ParseLine(parsed, toReal);
      if p.None? {
        return None;
      }
      line := line + [p.value];
      kept := kept + [parsed];
    }
    assert input[..|input|] == input;
    pts := Some(line);
  }
}
