/**
 * The schedule splitter `parse_input`: split on ';', strip whitespace from
 * every piece, drop the empty pieces. The same three lines appear in the
 * utility module and in both two-phase-locking drivers.
 */
module ScheduleText {

  /** The characters Python's `str.strip()` removes (`str.isspace`). */
  predicate IsSpace(c: char) {
    ('\U{9}' <= c <= '\U{d}') || ('\U{1c}' <= c <= '\U{20}') || c == '\U{85}' || c == '\U{a0}'
    || c == '\U{1680}' || ('\U{2000}' <= c <= '\U{200a}') || c == '\U{2028}' || c == '\U{2029}'
    || c == '\U{202f}' || c == '\U{205f}' || c == '\U{3000}'
  }

  /** Drops leading whitespace: the result is the suffix of `s` after its whitespace prefix. */
  function TrimLeft(s: string): (r: string)
    ensures |r| <= |s| && r == s[|s| - |r|..]
    ensures forall i :: 0 <= i < |s| - |r| ==> IsSpace(s[i])
    ensures r == [] || !IsSpace(r[0])
  {
    if |s| > 0 && IsSpace(s[0]) then TrimLeft(s[1..]) else s
  }

  /** Drops trailing whitespace: the result is the prefix of `s` before its whitespace suffix. */
  function TrimRight(s: string): (r: string)
    ensures |r| <= |s| && r == s[..|r|]
    ensures forall i :: |r| <= i < |s| ==> IsSpace(s[i])
    ensures r == [] || !IsSpace(r[|r| - 1])
  {
    if |s| > 0 && IsSpace(s[|s| - 1]) then TrimRight(s[..|s| - 1]) else s
  }

  /** The length of the whitespace prefix of `s`. */
  function LeadingSpace(s: string): (n: nat)
    ensures n <= |s| && forall i :: 0 <= i < n ==> IsSpace(s[i])
    ensures n == |s| || !IsSpace(s[n])
  {
    if |s| > 0 && IsSpace(s[0]) then 1 + LeadingSpace(s[1..]) else 0
  }

  /** `str.strip()`: the result keeps only characters of `s` and neither starts nor ends in whitespace. */
  function Strip(s: string): (r: string)
    ensures |r| <= |s|
    ensures forall c :: c in r ==> c in s
    ensures r == [] || (!IsSpace(r[0]) && !IsSpace(r[|r| - 1]))
  {
    var l := TrimLeft(s);
    var r := TrimRight(l);
    var k := |s| - |l|;
    assert r == s[k..k + |r|];
    SliceMembers(s, k, k + |r|);
    r
  }

  /** The whitespace prefix is what `TrimLeft` drops. */
  lemma {:induction false} LeadingSpaceTrim(s: string)
    ensures LeadingSpace(s) == |s| - |TrimLeft(s)|
  {
    if |s| > 0 && IsSpace(s[0]) {
      LeadingSpaceTrim(s[1..]);
    }
  }

  /** `TrimLeft` leaves the suffix after the whitespace prefix. */
  lemma TrimLeftSuffix(s: string)
    ensures LeadingSpace(s) <= |s| && TrimLeft(s) == s[LeadingSpace(s)..]
  {
    LeadingSpaceTrim(s);
  }

  /**
   * The strip of `s` is the slice of `s` that starts after its whitespace
   * prefix and is followed only by whitespace.
   */
  lemma StripIsSlice(s: string, k: nat, r: string)
    requires k == LeadingSpace(s) && r == Strip(s)
    ensures k + |r| <= |s| && r == s[k..k + |r|]
    ensures forall i :: k + |r| <= i < |s| ==> IsSpace(s[i])
  {
    var l := TrimLeft(s);
    TrimLeftSuffix(s);
    assert r == TrimRight(l) == l[..|r|];
    PrefixOfSuffix(s, k, l, r);
    StripTrailing(s, k, l, r);
  }

  /** A prefix of a suffix is a slice. */
  lemma PrefixOfSuffix(s: string, k: nat, l: string, r: string)
    requires k <= |s| && l == s[k..] && |r| <= |l| && r == l[..|r|]
    ensures k + |r| <= |s| && r == s[k..k + |r|]
  {
  }

  /** What follows the strip inside `s` is the whitespace `TrimRight` dropped. */
  lemma StripTrailing(s: string, k: nat, l: string, r: string)
    requires k <= |s| && l == s[k..] && r == TrimRight(l)
    ensures forall i :: k + |r| <= i < |s| ==> IsSpace(s[i])
  {
    forall i | k + |r| <= i < |s|
      ensures IsSpace(s[i])
    {
      assert s[i] == l[i - k];
    }
  }

  /** Every character of a slice is a character of the whole. */
  lemma SliceMembers(s: string, i: nat, j: nat)
    requires i <= j <= |s|
    ensures forall c :: c in s[i..j] ==> c in s
  {
    forall c | c in s[i..j] ensures c in s {
      var n :| 0 <= n < j - i && s[i..j][n] == c;
      assert s[i + n] == c;
    }
  }

  /** A string with no whitespace at either end is its own strip. */
  lemma StripFixed(s: string)
    requires s == [] || (!IsSpace(s[0]) && !IsSpace(s[|s| - 1]))
    ensures Strip(s) == s
  {
  }

  /** Number of occurrences of `c` in `s`. */
  function Count(s: string, c: char): nat {
    if s == [] then 0 else (if s[0] == c then 1 else 0) + Count(s[1..], c)
  }

  /** `s.split(";")`: the pieces between the separators, in order; "" splits into [""]. */
  function Split(s: string): (r: seq<string>)
    ensures |r| == Count(s, ';') + 1
    ensures forall i :: 0 <= i < |r| ==> ';' !in r[i]
    ensures JoinSemi(r) == s
  {
    if s == [] then [""]
    else
      var rest := Split(s[1..]);
      if s[0] == ';' then
        assert [s[0]] + s[1..] == s;
        [""] + rest
      else
        assert [s[0]] + rest[0] + (if |rest| == 1 then "" else ";" + JoinSemi(rest[1..])) == s;
        [[s[0]] + rest[0]] + rest[1..]
  }

  /** `";".join(pieces)`. */
  function JoinSemi(pieces: seq<string>): string {
    if pieces == [] then ""
    else if |pieces| == 1 then pieces[0]
    else pieces[0] + ";" + JoinSemi(pieces[1..])
  }

  /** `[s.strip() for s in pieces]`. */
  function StripAll(pieces: seq<string>): (r: seq<string>)
    ensures |r| == |pieces|
    ensures forall i :: 0 <= i < |r| ==> r[i] == Strip(pieces[i])
  {
    if pieces == [] then [] else [Strip(pieces[0])] + StripAll(pieces[1..])
  }

  /**
   * `[s for s in pieces if s != '']`: the non-empty pieces, each as often as
   * it occurs, and no empty one (order: `NonEmptyConcat`).
   */
  function NonEmpty(pieces: seq<string>): (r: seq<string>)
    ensures |r| <= |pieces|
    ensures forall i :: 0 <= i < |r| ==> r[i] != "" && r[i] in pieces
    ensures forall p :: p in pieces && p != "" ==> p in r
  {
    if pieces == [] then []
    else if pieces[0] == "" then NonEmpty(pieces[1..])
    else [pieces[0]] + NonEmpty(pieces[1..])
  }

  /** Every non-empty piece is kept as often as it occurs. */
  lemma {:induction false} NonEmptyKeeps(pieces: seq<string>)
    ensures forall p :: p != "" ==> multiset(NonEmpty(pieces))[p] == multiset(pieces)[p]
  {
    if pieces != [] {
      NonEmptyKeeps(pieces[1..]);
      assert pieces == [pieces[0]] + pieces[1..];
    }
  }

  /** A token of a schedule as `parse_input` returns it. */
  predicate Clean(tok: string) {
    tok != "" && Strip(tok) == tok && ';' !in tok
  }

  /**
   * `parse_input`: no token is empty, every token is its own strip and holds
   * no ';', and there are at most (number of ';') + 1 tokens.
   */
  function ParseInput(s: string): (r: seq<string>)
    ensures |r| <= Count(s, ';') + 1
    ensures forall i :: 0 <= i < |r| ==> Clean(r[i])
  {
    var pieces := Split(s);
    CleanTokens(pieces);
    NonEmpty(StripAll(pieces))
  }

  /** The strip of a piece without ';' that is not empty is a clean token. */
  lemma StripClean(p: string)
    requires ';' !in p && Strip(p) != ""
    ensures Clean(Strip(p))
  {
    StripFixed(Strip(p));
  }

  /** The non-empty strips of pieces without ';' are clean tokens. */
  lemma {:induction false} CleanTokens(pieces: seq<string>)
    requires forall i :: 0 <= i < |pieces| ==> ';' !in pieces[i]
    ensures forall i :: 0 <= i < |NonEmpty(StripAll(pieces))| ==> Clean(NonEmpty(StripAll(pieces))[i])
  {
    if pieces != [] {
      var st := StripAll(pieces);
      assert st[1..] == StripAll(pieces[1..]);
      CleanTokens(pieces[1..]);
      if st[0] != "" {
        StripClean(pieces[0]);
      }
    }
  }

  /** A piece without a separator splits into itself. */
  lemma {:induction false} SplitNoSeparator(s: string)
    requires ';' !in s
    ensures Split(s) == [s]
  {
    if s != [] {
      SplitNoSeparator(s[1..]);
      assert [s[0]] + s[1..] == s;
    }
  }

  lemma {:induction false} SplitConcat(a: string, b: string)
    ensures Split(a + ";" + b) == Split(a) + Split(b)
    decreases |a|
  {
    if a == [] {
      assert a + ";" + b == [';'] + b;
      assert (a + ";" + b)[1..] == b;
    } else {
      assert (a + ";" + b)[0] == a[0];
      assert (a + ";" + b)[1..] == a[1..] + ";" + b;
      SplitConcat(a[1..], b);
    }
  }

  lemma {:induction false} StripAllConcat(a: seq<string>, b: seq<string>)
    ensures StripAll(a + b) == StripAll(a) + StripAll(b)
  {
  }

  lemma {:induction false} NonEmptyConcat(a: seq<string>, b: seq<string>)
    ensures NonEmpty(a + b) == NonEmpty(a) + NonEmpty(b)
  {
    if a == [] {
      assert a + b == b;
    } else {
      assert (a + b)[1..] == a[1..] + b;
      NonEmptyConcat(a[1..], b);
    }
  }

  /** Left-to-right order: the tokens of `a;b` are the tokens of `a` followed by those of `b`. */
  lemma ParseInputConcat(a: string, b: string)
    ensures ParseInput(a + ";" + b) == ParseInput(a) + ParseInput(b)
  {
    SplitConcat(a, b);
    StripAllConcat(Split(a), Split(b));
    NonEmptyConcat(StripAll(Split(a)), StripAll(Split(b)));
  }

  /** A clean token parses to itself. */
  lemma ParseClean(t: string)
    requires Clean(t)
    ensures ParseInput(t) == [t]
  {
    SplitNoSeparator(t);
    assert StripAll([t]) == [t];
    assert NonEmpty([t]) == [t];
  }

  /** A piece without ';' whose strip is not empty is read as that one token. */
  lemma ParsePiece(p: string)
    requires ';' !in p && Strip(p) != ""
    ensures ParseInput(p) == [Strip(p)]
  {
    SplitNoSeparator(p);
    assert StripAll([p]) == [Strip(p)];
    assert NonEmpty([Strip(p)]) == [Strip(p)];
  }

  /**
   * Pieces joined with ';', none of which strips to nothing, come back as
   * their strips, one token per piece and in order.
   */
  lemma {:induction false} ParseJoinedPieces(ps: seq<string>)
    requires forall i :: 0 <= i < |ps| ==> ';' !in ps[i] && Strip(ps[i]) != ""
    ensures ParseInput(JoinSemi(ps)) == StripAll(ps)
  {
    if ps != [] {
      ParsePiece(ps[0]);
      if |ps| > 1 {
        ParseInputConcat(ps[0], JoinSemi(ps[1..]));
        ParseJoinedPieces(ps[1..]);
      }
    }
  }

  /** Joining clean tokens and splitting again gives the same tokens back. */
  lemma ParseJoinedClean(toks: seq<string>)
    requires forall i :: 0 <= i < |toks| ==> Clean(toks[i])
    ensures ParseInput(JoinSemi(toks)) == toks
  {
    ParseJoinedPieces(toks);
    StripAllClean(toks);
  }

  /** Clean tokens are their own strips. */
  lemma StripAllClean(toks: seq<string>)
    requires forall i :: 0 <= i < |toks| ==> Clean(toks[i])
    ensures StripAll(toks) == toks
  {
    var r := StripAll(toks);
    forall i | 0 <= i < |toks|
      ensures r[i] == toks[i]
    {
      assert Clean(toks[i]);
    }
  }

  /** Idempotence: re-joining the tokens with ';' and parsing again changes nothing. */
  lemma ParseInputIdempotent(s: string)
    ensures ParseInput(JoinSemi(ParseInput(s))) == ParseInput(s)
  {
    ParseJoinedClean(ParseInput(s));
  }
}
