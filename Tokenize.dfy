/** The string primitives the converter builds on: Python's `str.strip`,
    `str.startswith`, the two `re.split` forms it uses, `re.sub('[\{\}]', '', s)`
    and the comma-separated writing loops. */
module Tokenize {

  /** Python's `str.isspace` on one character: exactly what `str.strip()` removes. */
  predicate IsSpace(c: char) {
    ('\U{9}' <= c <= '\U{D}') || ('\U{1C}' <= c <= '\U{1F}') || c == ' '
    || c == '\U{85}' || c == '\U{A0}' || c == '\U{1680}'
    || ('\U{2000}' <= c <= '\U{200A}') || c == '\U{2028}' || c == '\U{2029}'
    || c == '\U{202F}' || c == '\U{205F}' || c == '\U{3000}'
  }

  predicate AllSpace(s: string) {
    forall i :: 0 <= i < |s| ==> IsSpace(s[i])
  }

  /** Drops the leading whitespace. */
  function StripLeft(s: string): string {
    if s != [] && IsSpace(s[0]) then StripLeft(s[1..]) else s
  }

  /** `StripLeft` keeps the suffix of `s` that starts at its first non-space
      character: what it drops is all whitespace. */
  lemma {:induction false} StripLeftSuffix(s: string)
    ensures var r := StripLeft(s);
      |r| <= |s| && r == s[|s| - |r|..] && AllSpace(s[..|s| - |r|]) && (r == [] || !IsSpace(r[0]))
  {
    if s != [] && IsSpace(s[0]) {
      StripLeftSuffix(s[1..]);
      var r := StripLeft(s[1..]);
      assert s[..|s| - |r|] == [s[0]] + s[1..][..|s| - 1 - |r|];
    }
  }

  /** Drops the trailing whitespace. */
  function StripRight(s: string): string {
    if s != [] && IsSpace(s[|s| - 1]) then StripRight(s[..|s| - 1]) else s
  }

  /** `StripRight` keeps the prefix of `s` that ends at its last non-space
      character: what it drops is all whitespace. */
  lemma {:induction false} StripRightPrefix(s: string)
    ensures var r := StripRight(s);
      |r| <= |s| && r == s[..|r|] && AllSpace(s[|r|..]) && (r == [] || !IsSpace(r[|r| - 1]))
  {
    if s != [] && IsSpace(s[|s| - 1]) {
      StripRightPrefix(s[..|s| - 1]);
      var r := StripRight(s[..|s| - 1]);
      assert s[|r|..] == s[..|s| - 1][|r|..] + [s[|s| - 1]];
    }
  }

  /** Python's `str.strip()`: `s` without its leading and trailing whitespace. */
  function Strip(s: string): string {
    StripRight(StripLeft(s))
  }

  /** A stripped string neither starts nor ends with whitespace. */
  lemma StripEnds(s: string)
    ensures |Strip(s)| <= |s|
    ensures Strip(s) == [] || (!IsSpace(Strip(s)[0]) && !IsSpace(Strip(s)[|Strip(s)| - 1]))
  {
    var l := StripLeft(s);
    StripLeftSuffix(s);
    StripRightPrefix(l);
    var r := StripRight(l);
    if r != [] {
      assert r[0] == l[0];
    }
  }

  /** A string stripping to nothing is exactly an all-whitespace string. */
  lemma StripEmpty(s: string)
    ensures Strip(s) == [] <==> AllSpace(s)
  {
    var l := StripLeft(s);
    var n := |s| - |l|;
    StripLeftSuffix(s);
    StripRightPrefix(l);
    assert l != [] ==> l[0] == s[n];
    if Strip(s) == [] {
      assert l == [] by {
        assert l[0..] == l;
      }
      assert s[..n] == s;
    } else {
      assert !IsSpace(s[n]);
    }
  }

  /** A string that neither starts nor ends with whitespace is left as it is,
      so stripping twice is stripping once. */
  lemma StripTrimmed(s: string)
    requires s == [] || (!IsSpace(s[0]) && !IsSpace(s[|s| - 1]))
    ensures Strip(s) == s
  {
  }

  lemma StripIdempotent(s: string)
    ensures Strip(Strip(s)) == Strip(s)
  {
    StripEnds(s);
    StripTrimmed(Strip(s));
  }

  /** A line as `readlines` returns it, text then line break, strips to
      its text when the text neither starts nor ends with whitespace. */
  lemma StripLineBreak(s: string)
    requires s != [] && !IsSpace(s[0]) && !IsSpace(s[|s| - 1])
    ensures Strip(s + "\n") == s
  {
    assert StripLeft(s + "\n") == s + "\n";
    assert (s + "\n")[..|s|] == s;
    assert StripRight(s + "\n") == StripRight(s);
  }

  /** Python's `str.startswith`. */
  predicate StartsWith(s: string, prefix: string) {
    |prefix| <= |s| && s[..|prefix|] == prefix
  }

  predicate NoneOf(s: string, chars: set<char>) {
    forall i :: 0 <= i < |s| ==> s[i] !in chars
  }

  /** `re.split` on a pattern that alternates single characters: the pieces
      between consecutive separator occurrences, empty pieces included. */
  function SplitOn(s: string, seps: set<char>): (r: seq<string>)
    ensures |r| >= 1
  {
    if s == [] then [""]
    else
      var rest := SplitOn(s[1..], seps);
      if s[0] in seps then [""] + rest
      else [[s[0]] + rest[0]] + rest[1..]
  }

  /** No piece holds a separator. */
  lemma {:induction false} SplitOnPieces(s: string, seps: set<char>)
    ensures forall k :: 0 <= k < |SplitOn(s, seps)| ==> NoneOf(SplitOn(s, seps)[k], seps)
  {
    if s != [] {
      SplitOnPieces(s[1..], seps);
      var rest := SplitOn(s[1..], seps);
      if s[0] !in seps {
        assert forall i :: 1 <= i < |[s[0]] + rest[0]| ==> ([s[0]] + rest[0])[i] == rest[0][i - 1];
      }
    }
  }

  /** A separator cuts the text in two, and each side splits on its own. */
  lemma {:induction false} SplitOnSeparator(a: string, c: char, b: string, seps: set<char>)
    requires c in seps
    ensures SplitOn(a + [c] + b, seps) == SplitOn(a, seps) + SplitOn(b, seps)
  {
    if a == [] {
      assert (a + [c] + b)[1..] == b;
    } else {
      assert (a + [c] + b)[1..] == a[1..] + [c] + b;
      SplitOnSeparator(a[1..], c, b, seps);
    }
  }

  /** Text without separators is one piece. */
  lemma {:induction false} SplitOnNoSeparator(s: string, seps: set<char>)
    requires NoneOf(s, seps)
    ensures SplitOn(s, seps) == [s]
  {
    if s != [] {
      SplitOnNoSeparator(s[1..], seps);
      assert [s[0]] + s[1..] == s;
    }
  }

  /** All characters of `s` but those in `drop`, in order. */
  function Remove(s: string, drop: set<char>): string {
    if s == [] then ""
    else (if s[0] in drop then "" else [s[0]]) + Remove(s[1..], drop)
  }

  lemma {:induction false} RemoveDrops(s: string, drop: set<char>)
    ensures NoneOf(Remove(s, drop), drop)
  {
    if s != [] {
      RemoveDrops(s[1..], drop);
    }
  }

  lemma {:induction false} RemoveNothing(s: string, drop: set<char>)
    requires NoneOf(s, drop)
    ensures Remove(s, drop) == s
  {
    if s != [] {
      RemoveNothing(s[1..], drop);
    }
  }

  function Concat(pieces: seq<string>): string {
    if pieces == [] then "" else pieces[0] + Concat(pieces[1..])
  }

  lemma {:induction false} ConcatAppend(a: seq<string>, b: seq<string>)
    ensures Concat(a + b) == Concat(a) + Concat(b)
  {
    if a == [] {
      assert a + b == b;
    } else {
      assert (a + b)[1..] == a[1..] + b;
      ConcatAppend(a[1..], b);
    }
  }

  lemma ConcatSingle(s: string)
    ensures Concat([s]) == s
  {
    assert [s][1..] == [];
  }

  /** Splitting loses nothing but the separators themselves. */
  lemma {:induction false} SplitOnLosesOnlySeparators(s: string, seps: set<char>)
    ensures Concat(SplitOn(s, seps)) == Remove(s, seps)
  {
    if s != [] {
      var rest := SplitOn(s[1..], seps);
      SplitOnLosesOnlySeparators(s[1..], seps);
      if s[0] !in seps {
        assert Concat(rest) == rest[0] + Concat(rest[1..]);
      }
    }
  }

  /** Keeps the pieces whose stripped form is non-empty (`len(t.strip()) > 0`),
      in order; by StripEmpty that is the pieces that are not all whitespace. */
  function NonBlank(pieces: seq<string>): (r: seq<string>)
    ensures |r| <= |pieces|
  {
    if pieces == [] then []
    else
      var rest := NonBlank(pieces[1..]);
      if !AllSpace(pieces[0]) then [pieces[0]] + rest else rest
  }

  /** The kept pieces are pieces, and none is blank. */
  lemma {:induction false} NonBlankKeeps(pieces: seq<string>)
    ensures forall t :: t in NonBlank(pieces) ==> t in pieces && !AllSpace(t)
  {
    if pieces != [] {
      NonBlankKeeps(pieces[1..]);
    }
  }

  lemma {:induction false} NonBlankAppend(a: seq<string>, b: seq<string>)
    ensures NonBlank(a + b) == NonBlank(a) + NonBlank(b)
  {
    if a == [] {
      assert a + b == b;
    } else {
      var ab := a + b;
      assert ab[0] == a[0];
      assert ab[1..] == a[1..] + b;
      NonBlankAppend(a[1..], b);
      if !AllSpace(a[0]) {
        assert NonBlank(a) == [a[0]] + NonBlank(a[1..]);
        assert NonBlank(ab) == [a[0]] + NonBlank(a[1..] + b);
      } else {
        assert NonBlank(a) == NonBlank(a[1..]);
        assert NonBlank(ab) == NonBlank(a[1..] + b);
      }
    }
  }

  /** `[t for t in re.split(seps, s) if len(t.strip()) > 0]`. */
  function Tokens(s: string, seps: set<char>): seq<string> {
    NonBlank(SplitOn(s, seps))
  }

  /** Every token is non-blank and holds no separator. */
  lemma TokensShape(s: string, seps: set<char>)
    ensures forall k :: 0 <= k < |Tokens(s, seps)| ==>
              !AllSpace(Tokens(s, seps)[k]) && NoneOf(Tokens(s, seps)[k], seps)
  {
    var pieces := SplitOn(s, seps);
    NonBlankKeeps(pieces);
    SplitOnPieces(s, seps);
    forall k | 0 <= k < |Tokens(s, seps)|
      ensures !AllSpace(Tokens(s, seps)[k]) && NoneOf(Tokens(s, seps)[k], seps)
    {
      var t := Tokens(s, seps)[k];
      assert t in NonBlank(pieces);
      var j :| 0 <= j < |pieces| && pieces[j] == t;
    }
  }

  /** Tokenising distributes over a separator. */
  lemma TokensSeparator(a: string, c: char, b: string, seps: set<char>)
    requires c in seps
    ensures Tokens(a + [c] + b, seps) == Tokens(a, seps) + Tokens(b, seps)
  {
    SplitOnSeparator(a, c, b, seps);
    NonBlankAppend(SplitOn(a, seps), SplitOn(b, seps));
  }

  /** Text without separators is one token, or none when it is blank. */
  lemma TokensWord(s: string, seps: set<char>)
    requires NoneOf(s, seps)
    ensures Tokens(s, seps) == if Strip(s) == "" then [] else [s]
  {
    SplitOnNoSeparator(s, seps);
    StripEmpty(s);
    assert [s][1..] == [];
  }

  /** A non-blank piece without separators is one token. */
  lemma TokensOfWord(s: string, seps: set<char>)
    requires NoneOf(s, seps) && !AllSpace(s)
    ensures Tokens(s, seps) == [s]
  {
    TokensWord(s, seps);
    StripEmpty(s);
  }

  /** A token followed by a separator is the first token. */
  lemma TokensCons(w: string, c: char, rest: string, seps: set<char>)
    requires NoneOf(w, seps) && !AllSpace(w) && c in seps
    ensures Tokens(w + [c] + rest, seps) == [w] + Tokens(rest, seps)
  {
    TokensSeparator(w, c, rest, seps);
    TokensOfWord(w, seps);
  }

  /** A leading separator yields no token. */
  lemma TokensSkip(c: char, rest: string, seps: set<char>)
    requires c in seps
    ensures Tokens([c] + rest, seps) == Tokens(rest, seps)
  {
    TokensSeparator("", c, rest, seps);
    assert "" + [c] + rest == [c] + rest;
  }

  /** A token followed by a separator (or by nothing) comes first, and the
      split goes on after it. */
  lemma TokensLead(w: string, rest: string, seps: set<char>)
    requires NoneOf(w, seps) && !AllSpace(w) && (rest == [] || rest[0] in seps)
    ensures Tokens(w + rest, seps) == [w] + Tokens(rest, seps)
  {
    if rest == [] {
      assert w + rest == w;
      TokensOfWord(w, seps);
      TokensWord(rest, seps);
    } else {
      assert w + rest == w + [rest[0]] + rest[1..];
      assert rest == [rest[0]] + rest[1..];
      TokensCons(w, rest[0], rest[1..], seps);
      TokensSkip(rest[0], rest[1..], seps);
    }
  }

  /** Separators of the documentation-comment split (`" |\.|\*|=|,|\(|\)|;|\n"`). */
  const CommentSeparators: set<char> := {' ', '.', '*', '=', ',', '(', ')', ';', '\n'}

  /** Separators of the declaration split (`" |\.|=|,|\(|\)|\{|\}|;|\n"`). */
  const DeclarationSeparators: set<char> := {' ', '.', '=', ',', '(', ')', '{', '}', ';', '\n'}

  const Braces: set<char> := {'{', '}'}

  /** `re.sub('[\{\}]', '', s)`. */
  function RemoveBraces(s: string): string {
    Remove(s, Braces)
  }

  /** A token of a declaration line: non-blank, with no separator in it. */
  predicate IsToken(s: string) {
    NoneOf(s, DeclarationSeparators) && !AllSpace(s)
  }

  /** Every item is a declaration token. */
  predicate AllTokens(items: seq<string>) {
    items == [] || (IsToken(items[0]) && AllTokens(items[1..]))
  }

  /** A list written with `, ` between its items splits back into the items. */
  lemma {:induction false} TokensJoin(items: seq<string>)
    requires AllTokens(items)
    ensures Tokens(Join(items, ", "), DeclarationSeparators) == items
  {
    if |items| == 1 {
      TokensOfWord(items[0], DeclarationSeparators);
    } else if |items| > 1 {
      var rest := Join(items[1..], ", ");
      assert Join(items, ", ") == items[0] + [','] + ([' '] + rest);
      TokensCons(items[0], ',', [' '] + rest, DeclarationSeparators);
      TokensSkip(' ', rest, DeclarationSeparators);
      TokensJoin(items[1..]);
    }
  }

  /** ASCII `\w`. */
  predicate IsWordChar(c: char) {
    ('a' <= c <= 'z') || ('A' <= c <= 'Z') || ('0' <= c <= '9') || c == '_'
  }

  predicate AllWord(s: string) {
    forall i :: 0 <= i < |s| ==> IsWordChar(s[i])
  }

  /** A JavaScript-style name: a non-empty run of word characters. */
  predicate IsIdentifier(s: string) {
    s != [] && AllWord(s)
  }

  /** Every item is an identifier. */
  predicate AllIdentifiers(items: seq<string>) {
    items == [] || (IsIdentifier(items[0]) && AllIdentifiers(items[1..]))
  }

  /** An identifier is a declaration token and starts with no whitespace. */
  lemma IdentifierIsToken(s: string)
    requires IsIdentifier(s)
    ensures IsToken(s) && !IsSpace(s[0])
  {
    assert IsWordChar(s[0]);
  }

  lemma {:induction false} IdentifiersAreTokens(items: seq<string>)
    requires AllIdentifiers(items)
    ensures AllTokens(items)
  {
    if items != [] {
      IdentifierIsToken(items[0]);
      IdentifiersAreTokens(items[1..]);
    }
  }

  /** `s` without its leading run of non-word characters. */
  function SkipNonWord(s: string): (r: string)
    ensures |r| <= |s|
    ensures s != [] && !IsWordChar(s[0]) ==> |r| < |s|
  {
    if s != [] && !IsWordChar(s[0]) then SkipNonWord(s[1..]) else s
  }

  /** `re.split(r'\W+', s)`: the maximal runs of word characters, with an empty
      first piece when `s` starts with a separator run and an empty last piece
      when it ends with one. There is more than one piece exactly when `s`
      holds a non-word character. */
  function WordRuns(s: string): (r: seq<string>)
    ensures |r| >= 1
    decreases |s|
  {
    if s == [] then [""]
    else if IsWordChar(s[0]) then
      var rest := WordRuns(s[1..]);
      [[s[0]] + rest[0]] + rest[1..]
    else [""] + WordRuns(SkipNonWord(s))
  }

  /** Every piece is a run of word characters, and there is more than one
      piece exactly when `s` holds a non-word character. */
  lemma {:induction false} WordRunsShape(s: string)
    ensures forall k :: 0 <= k < |WordRuns(s)| ==> AllWord(WordRuns(s)[k])
    ensures |WordRuns(s)| > 1 <==> !AllWord(s)
    decreases |s|
  {
    if s == [] {
    } else if IsWordChar(s[0]) {
      WordRunsShape(s[1..]);
      var rest := WordRuns(s[1..]);
      assert AllWord(s) <==> AllWord(s[1..]) by {
        if AllWord(s[1..]) {
          assert forall i :: 1 <= i < |s| ==> s[i] == s[1..][i - 1];
        }
      }
      assert forall i :: 1 <= i < |[s[0]] + rest[0]| ==> ([s[0]] + rest[0])[i] == rest[0][i - 1];
    } else {
      WordRunsShape(SkipNonWord(s));
    }
  }

  /** A leading word followed by a separator run is the first piece, and the
      split goes on after the run. */
  lemma {:induction false} WordRunsAfterWord(w: string, c: char, t: string)
    requires AllWord(w) && !IsWordChar(c)
    ensures WordRuns(w + [c] + t) == [w] + WordRuns(SkipNonWord([c] + t))
  {
    if w != [] {
      assert (w + [c] + t)[1..] == w[1..] + [c] + t;
      WordRunsAfterWord(w[1..], c, t);
      assert [w[0]] + w[1..] == w;
    }
  }

  /** Items separated by `sep`, none after the last. */
  function Join(items: seq<string>, sep: string): string {
    if |items| == 0 then ""
    else if |items| == 1 then items[0]
    else items[0] + sep + Join(items[1..], sep)
  }

  lemma {:induction false} JoinSnoc(items: seq<string>, y: string, sep: string)
    requires items != []
    ensures Join(items + [y], sep) == Join(items, sep) + sep + y
  {
    if |items| == 1 {
      assert (items + [y])[1..] == [y];
    } else {
      assert (items + [y])[1..] == items[1..] + [y];
      JoinSnoc(items[1..], y, sep);
    }
  }

  /** What a loop over `items` leaves written after `k` rounds, each round
      writing item `i` and then `sep` unless `i` is the last index. */
  function JoinPrefix(items: seq<string>, sep: string, k: nat): string
    requires k <= |items|
  {
    if k == 0 then ""
    else JoinPrefix(items, sep, k - 1) + items[k - 1] + (if k < |items| then sep else "")
  }

  /** The writing loop produces the separated list. */
  lemma JoinPrefixComplete(items: seq<string>, sep: string)
    ensures JoinPrefix(items, sep, |items|) == Join(items, sep)
  {
    if items != [] {
      JoinPrefixAt(items, sep, |items|);
      assert items[..|items|] == items;
    }
  }

  lemma {:induction false} JoinPrefixAt(items: seq<string>, sep: string, k: nat)
    requires 1 <= k <= |items|
    ensures JoinPrefix(items, sep, k) == Join(items[..k], sep) + (if k < |items| then sep else "")
  {
    if k > 1 {
      JoinPrefixAt(items, sep, k - 1);
      assert items[..k] == items[..k - 1] + [items[k - 1]];
      JoinSnoc(items[..k - 1], items[k - 1], sep);
    }
  }
}
