/** Option and Result, the failure-carrying values used across the model. */
module Wrappers {
  datatype Option<+T> = None | Some(value: T)

  datatype Result<+T, +E> = Success(value: T) | Failure(error: E)
}

/**
 * String operations of the JavaScript runtime that the application relies on:
 * the `\s` character class, `String.prototype.trim`, `split(/\s+/)`,
 * `Array.prototype.join`, `startsWith`/`endsWith`/`includes`, and the
 * decimal rendering of a number inside a template literal.
 */
module Text {

  /** The characters ECMAScript's `\s` matches and `trim` removes
      (WhiteSpace and LineTerminator). */
  predicate IsSpace(c: char) {
    || c == ' ' || c == '\t' || c == '\n' || c == '\U{000B}' || c == '\U{000C}' || c == '\r'
    || c == '\U{00A0}' || c == '\U{1680}' || ('\U{2000}' <= c <= '\U{200A}')
    || c == '\U{2028}' || c == '\U{2029}' || c == '\U{202F}' || c == '\U{205F}'
    || c == '\U{3000}' || c == '\U{FEFF}'
  }

  predicate SpaceFree(s: string) {
    forall i :: 0 <= i < |s| ==> !IsSpace(s[i])
  }

  predicate AllSpace(s: string) {
    forall i :: 0 <= i < |s| ==> IsSpace(s[i])
  }

  predicate StartsWith(s: string, prefix: string) {
    |prefix| <= |s| && s[..|prefix|] == prefix
  }

  predicate EndsWith(s: string, suffix: string) {
    |suffix| <= |s| && s[|s| - |suffix|..] == suffix
  }

  /** `s.includes(part)`: some position of `s` starts an occurrence of `part`. */
  predicate Contains(s: string, part: string)
    decreases |s|
  {
    StartsWith(s, part) || (s != [] && Contains(s[1..], part))
  }

  /** Removes the leading run of whitespace. */
  function TrimStart(s: string): (r: string)
    ensures |r| <= |s| && r == s[|s| - |r|..]
    ensures AllSpace(s[..|s| - |r|])
    ensures r == [] || !IsSpace(r[0])
  {
    if s != [] && IsSpace(s[0]) then
      var r := TrimStart(s[1..]);
      var k := |s| - |r|;
      assert AllSpace(s[1..][..k - 1]);
      AllSpaceCons(s, k);
      SliceTail(s, k);
      r
    else s
  }

  /** Removes the trailing run of whitespace. */
  function TrimEnd(s: string): (r: string)
    ensures |r| <= |s| && r == s[..|r|]
    ensures AllSpace(s[|r|..])
    ensures r == [] || !IsSpace(r[|r| - 1])
  {
    if s != [] && IsSpace(s[|s| - 1]) then
      var r := TrimEnd(s[..|s| - 1]);
      AllSpaceSnoc(s, |r|);
      r
    else s
  }

  lemma AllSpaceCons(s: string, k: nat)
    requires 1 <= k <= |s| && IsSpace(s[0]) && AllSpace(s[1..][..k - 1])
    ensures AllSpace(s[..k])
  {
    forall i | 0 < i < k ensures IsSpace(s[..k][i]) {
      assert s[..k][i] == s[1..][..k - 1][i - 1];
    }
  }

  lemma SliceTail<T>(s: seq<T>, k: nat)
    requires 1 <= k <= |s|
    ensures s[1..][k - 1..] == s[k..]
  {
  }

  lemma AllSpaceSnoc(s: string, k: nat)
    requires k < |s| && IsSpace(s[|s| - 1]) && AllSpace(s[..|s| - 1][k..])
    ensures AllSpace(s[k..])
  {
    forall i | 0 <= i < |s| - 1 - k ensures IsSpace(s[k..][i]) {
      assert s[k..][i] == s[..|s| - 1][k..][i];
    }
  }

  lemma AllSpaceConcat(a: string, b: string)
    requires AllSpace(a) && AllSpace(b)
    ensures AllSpace(a + b)
  {
    forall i | 0 <= i < |a + b| ensures IsSpace((a + b)[i]) {
      if i >= |a| {
        assert (a + b)[i] == b[i - |a|];
      }
    }
  }

  /** `String.prototype.trim`. */
  function Trim(s: string): (r: string)
    ensures r == [] || (!IsSpace(r[0]) && !IsSpace(r[|r| - 1]))
    ensures r == [] <==> AllSpace(s)
  {
    var t := TrimStart(s);
    var r := TrimEnd(t);
    if r == [] then
      SeqSplitAt(s, |s| - |t|);
      AllSpaceConcat(s[..|s| - |t|], t);
      r
    else
      assert s[|s| - |t|] == t[0] == r[0];
      r
  }

  /** Trimming is idempotent: an emitted chunk is already trimmed. */
  lemma TrimIdempotent(s: string)
    ensures Trim(Trim(s)) == Trim(s)
  {
  }

  /** Concatenation of a sequence of sequences, in order. */
  function Flatten<T>(xss: seq<seq<T>>): seq<T> {
    if xss == [] then [] else xss[0] + Flatten(xss[1..])
  }

  lemma {:induction false} FlattenAppend<T>(a: seq<seq<T>>, b: seq<seq<T>>)
    ensures Flatten(a + b) == Flatten(a) + Flatten(b)
  {
    if a == [] {
      assert a + b == b;
    } else {
      assert (a + b)[1..] == a[1..] + b;
      FlattenAppend(a[1..], b);
    }
  }

  lemma FlattenSnoc<T>(a: seq<seq<T>>, x: seq<T>)
    ensures Flatten(a + [x]) == Flatten(a) + x
  {
    FlattenAppend(a, [x]);
    assert Flatten([x]) == x + Flatten<T>([]);
  }

  /** `Array.prototype.join(sep)`. */
  function Join(xs: seq<string>, sep: string): string {
    if xs == [] then ""
    else if |xs| == 1 then xs[0]
    else xs[0] + sep + Join(xs[1..], sep)
  }

  /** `.filter(w => w.length > 0)`. */
  function FilterNonEmpty(xs: seq<string>): (r: seq<string>)
    ensures forall i :: 0 <= i < |r| ==> r[i] != [] && r[i] in xs
    ensures Flatten(r) == Flatten(xs)
    ensures |r| <= |xs|
  {
    if xs == [] then []
    else if xs[0] == [] then FilterNonEmpty(xs[1..])
    else [xs[0]] + FilterNonEmpty(xs[1..])
  }

  /** Filtering a list with no empty element keeps it whole. */
  lemma {:induction false} FilterNonEmptyKeeps(xs: seq<string>)
    requires forall i :: 0 <= i < |xs| ==> xs[i] != []
    ensures FilterNonEmpty(xs) == xs
  {
    if xs != [] {
      FilterNonEmptyKeeps(xs[1..]);
      SeqFirstRest(xs);
    }
  }

  /** `s.split(/\s+/)`: the pieces between maximal whitespace runs; a leading or
      trailing run yields an empty first or last piece, and "" yields [""]. */
  function SplitWs(s: string): (r: seq<string>)
    ensures |r| >= 1
    decreases |s|
  {
    if s == [] then [""]
    else if IsSpace(s[0]) then [""] + SplitWs(TrimStart(s))
    else
      var rest := SplitWs(s[1..]);
      [[s[0]] + rest[0]] + rest[1..]
  }

  /** The characters of `s` that are not whitespace, in order. */
  function NonSpaceChars(s: string): (r: string)
    ensures SpaceFree(r)
  {
    if s == [] then []
    else if IsSpace(s[0]) then NonSpaceChars(s[1..])
    else [s[0]] + NonSpaceChars(s[1..])
  }

  lemma {:induction false} NonSpaceCharsOfSpaces(s: string)
    requires AllSpace(s)
    ensures NonSpaceChars(s) == []
  {
    if s != [] {
      NonSpaceCharsOfSpaces(s[1..]);
    }
  }

  lemma {:induction false} NonSpaceCharsAppend(a: string, b: string)
    ensures NonSpaceChars(a + b) == NonSpaceChars(a) + NonSpaceChars(b)
  {
    if a == [] {
      assert a + b == b;
    } else {
      assert (a + b)[1..] == a[1..] + b;
      NonSpaceCharsAppend(a[1..], b);
    }
  }

  /** Every piece of `split(/\s+/)` is free of whitespace. */
  lemma {:induction false} SplitWsSpaceFree(s: string)
    ensures forall i :: 0 <= i < |SplitWs(s)| ==> SpaceFree(SplitWs(s)[i])
    decreases |s|
  {
    if s == [] {
    } else if IsSpace(s[0]) {
      var t := TrimStart(s);
      SplitWsSpaceFree(t);
      assert SplitWs(s) == [""] + SplitWs(t);
    } else {
      var rest := SplitWs(s[1..]);
      SplitWsSpaceFree(s[1..]);
      var r := SplitWs(s);
      assert r == [[s[0]] + rest[0]] + rest[1..];
      forall i | 0 <= i < |r| ensures SpaceFree(r[i]) {
        if i > 0 { assert r[i] == rest[i]; }
      }
    }
  }

  /** The pieces of `split(/\s+/)` hold exactly the non-whitespace characters of
      the input, in order. */
  lemma {:induction false} SplitWsChars(s: string)
    ensures Flatten(SplitWs(s)) == NonSpaceChars(s)
    decreases |s|
  {
    if s == [] {
      assert Flatten([""]) == "" + Flatten<char>([]);
    } else if IsSpace(s[0]) {
      var t := TrimStart(s);
      SplitWsChars(t);
      SplitWsCharsSpace(s, t);
    } else {
      SplitWsChars(s[1..]);
      SplitWsCharsWord(s);
    }
  }

  lemma SplitWsCharsSpace(s: string, t: string)
    requires s != [] && IsSpace(s[0]) && t == TrimStart(s)
    requires Flatten(SplitWs(t)) == NonSpaceChars(t)
    ensures Flatten(SplitWs(s)) == NonSpaceChars(s)
  {
    SplitWsUnfoldSpace(s);
    FlattenCons("", SplitWs(t));
    var lead := s[..|s| - |t|];
    SeqSplitAt(s, |s| - |t|);
    NonSpaceCharsAppend(lead, t);
    NonSpaceCharsOfSpaces(lead);
  }

  lemma SeqSplitAt<T>(xs: seq<T>, k: nat)
    requires k <= |xs|
    ensures xs == xs[..k] + xs[k..]
  {
  }

  lemma SplitWsCharsWord(s: string)
    requires s != [] && !IsSpace(s[0])
    requires Flatten(SplitWs(s[1..])) == NonSpaceChars(s[1..])
    ensures Flatten(SplitWs(s)) == NonSpaceChars(s)
  {
    var rest := SplitWs(s[1..]);
    SplitWsUnfoldWord(s);
    FlattenCons([s[0]] + rest[0], rest[1..]);
    FlattenFirst(rest);
  }

  lemma SplitWsUnfoldSpace(s: string)
    requires s != [] && IsSpace(s[0])
    ensures SplitWs(s) == [""] + SplitWs(TrimStart(s))
  {
  }

  lemma SplitWsUnfoldWord(s: string)
    requires s != [] && !IsSpace(s[0])
    ensures SplitWs(s) == [[s[0]] + SplitWs(s[1..])[0]] + SplitWs(s[1..])[1..]
    ensures NonSpaceChars(s) == [s[0]] + NonSpaceChars(s[1..])
  {
  }

  lemma FlattenCons<T>(x: seq<T>, xs: seq<seq<T>>)
    ensures Flatten([x] + xs) == x + Flatten(xs)
  {
    assert ([x] + xs)[1..] == xs;
  }

  lemma FlattenFirst<T>(xs: seq<seq<T>>)
    requires |xs| >= 1
    ensures Flatten(xs) == xs[0] + Flatten(xs[1..])
  {
  }

  /** Splitting a space-free word followed by `t` glues the word to the first piece of `t`. */
  lemma {:induction false} SplitWsWordPrefix(w: string, t: string)
    requires SpaceFree(w)
    ensures SplitWs(w + t) == [w + SplitWs(t)[0]] + SplitWs(t)[1..]
    decreases |w|
  {
    var r := SplitWs(t);
    if w == [] {
      assert w + t == t;
      assert w + r[0] == r[0];
      SeqFirstRest(r);
    } else {
      SpaceFreeTail(w);
      SplitWsWordPrefix(w[1..], t);
      SplitWsWordStep(w, t);
    }
  }

  lemma SpaceFreeTail(w: string)
    requires SpaceFree(w) && w != []
    ensures SpaceFree(w[1..]) && !IsSpace(w[0])
  {
    forall i | 0 <= i < |w| - 1 ensures !IsSpace(w[1..][i]) {
      assert w[1..][i] == w[i + 1];
    }
  }

  /** One step of `SplitWsWordPrefix`: a non-space first character joins the first piece. */
  lemma SplitWsWordStep(w: string, t: string)
    requires w != [] && !IsSpace(w[0])
    requires SplitWs(w[1..] + t) == [w[1..] + SplitWs(t)[0]] + SplitWs(t)[1..]
    ensures SplitWs(w + t) == [w + SplitWs(t)[0]] + SplitWs(t)[1..]
  {
    var u := w[1..] + t;
    ConsConcat(w, t);
    SplitWsCons(w[0], u);
    ConsFirstPiece(w, SplitWs(u), SplitWs(t));
  }

  lemma ConsConcat<T>(w: seq<T>, t: seq<T>)
    requires w != []
    ensures w + t == [w[0]] + (w[1..] + t)
  {
    SeqFirstRest(w);
  }

  /** A non-space character joins the first piece of what follows it. */
  lemma SplitWsCons(c: char, u: string)
    requires !IsSpace(c)
    ensures SplitWs([c] + u) == [[c] + SplitWs(u)[0]] + SplitWs(u)[1..]
  {
    assert ([c] + u)[1..] == u;
  }

  lemma ConsFirstPiece(w: string, ru: seq<string>, r: seq<string>)
    requires w != [] && |r| >= 1 && ru == [w[1..] + r[0]] + r[1..]
    ensures [[w[0]] + ru[0]] + ru[1..] == [w + r[0]] + r[1..]
  {
    assert ru[0] == w[1..] + r[0] && ru[1..] == r[1..];
    SeqFirstRest(w);
    assert [w[0]] + (w[1..] + r[0]) == w + r[0];
  }

  lemma SeqFirstRest<T>(xs: seq<T>)
    requires |xs| >= 1
    ensures xs == [xs[0]] + xs[1..]
  {
  }

  /** A single space before text that does not start with whitespace opens an empty piece. */
  lemma SplitWsSpacePrefix(u: string)
    requires u == [] || !IsSpace(u[0])
    ensures SplitWs(" " + u) == [""] + SplitWs(u)
  {
    var s := " " + u;
    assert s[0] == ' ' && IsSpace(s[0]);
    assert s[1..] == u;
    assert TrimStart(s) == TrimStart(u) == u;
  }

  /** Joining space-free non-empty words with single spaces and splitting again
      gives the words back. */
  lemma {:induction false} SplitWsJoin(ws: seq<string>)
    requires |ws| >= 1
    requires forall i :: 0 <= i < |ws| ==> ws[i] != [] && SpaceFree(ws[i])
    ensures SplitWs(Join(ws, " ")) == ws
    decreases |ws|
  {
    if |ws| == 1 {
      SplitWsWordPrefix(ws[0], "");
      assert ws[0] + "" == ws[0];
    } else {
      var rest := Join(ws[1..], " ");
      SplitWsJoin(ws[1..]);
      JoinHead(ws[1..]);
      JoinUnfold(ws);
      SplitWsWordSpace(ws[0], rest, ws[1..]);
      SeqFirstRest(ws);
    }
  }

  lemma JoinUnfold(ws: seq<string>)
    requires |ws| >= 2
    ensures Join(ws, " ") == ws[0] + (" " + Join(ws[1..], " "))
  {
  }

  /** A word, a space, and text that splits into `tail`, split into the word followed by `tail`. */
  lemma SplitWsWordSpace(w: string, rest: string, tail: seq<string>)
    requires SpaceFree(w) && (rest == [] || !IsSpace(rest[0])) && SplitWs(rest) == tail
    ensures SplitWs(w + (" " + rest)) == [w] + tail
  {
    SplitWsSpacePrefix(rest);
    SplitWsWordPrefix(w, " " + rest);
    var r := SplitWs(" " + rest);
    assert r[0] == "" && r[1..] == tail;
    assert w + r[0] == w;
  }

  /** A join of non-empty words starts with the first character of the first word. */
  lemma JoinHead(ws: seq<string>)
    requires |ws| >= 1 && ws[0] != []
    ensures Join(ws, " ") != [] && Join(ws, " ")[0] == ws[0][0]
  {
  }

  /** A join of space-free words with single spaces contains no other whitespace,
      in particular no line feed. */
  lemma {:induction false} JoinChars(ws: seq<string>, c: char)
    requires forall i :: 0 <= i < |ws| ==> SpaceFree(ws[i])
    requires c in Join(ws, " ")
    ensures c == ' ' || !IsSpace(c)
    decreases |ws|
  {
    if |ws| > 1 {
      var rest := Join(ws[1..], " ");
      assert Join(ws, " ") == ws[0] + " " + rest;
      if c in rest {
        JoinChars(ws[1..], c);
      }
    }
  }

  /** The decimal digits of a natural number, as `${n}` renders it. */
  function NatToString(n: nat): (r: string)
    ensures |r| >= 1
    ensures forall i :: 0 <= i < |r| ==> '0' <= r[i] <= '9'
  {
    if n < 10 then [DigitChar(n)] else NatToString(n / 10) + [DigitChar(n % 10)]
  }

  function DigitChar(d: nat): (c: char)
    requires d < 10
    ensures '0' <= c <= '9' && c as int - '0' as int == d
  {
    (d + '0' as int) as char
  }

  /** The value the digits denote. */
  function DigitsValue(s: string): int
    requires forall i :: 0 <= i < |s| ==> '0' <= s[i] <= '9'
  {
    if s == [] then 0 else 10 * DigitsValue(s[..|s| - 1]) + (s[|s| - 1] as int - '0' as int)
  }

  /** Reading the rendered digits back gives the number: the rendering loses nothing. */
  lemma {:induction false} NatToStringValue(n: nat)
    ensures DigitsValue(NatToString(n)) == n
  {
    var r := NatToString(n);
    if n >= 10 {
      NatToStringValue(n / 10);
      assert r[..|r| - 1] == NatToString(n / 10);
    }
  }

  /** An integer in decimal, with a leading '-' when negative. */
  function IntToString(n: int): string {
    if n < 0 then "-" + NatToString(-n) else NatToString(n)
  }

  /** ASCII upper-case letters mapped to lower case; everything else unchanged. */
  function LowerChar(c: char): char {
    if 'A' <= c <= 'Z' then (c as int + 32) as char else c
  }

  function ToLower(s: string): (r: string)
    ensures |r| == |s|
    ensures forall i :: 0 <= i < |s| ==> r[i] == LowerChar(s[i])
  {
    if s == [] then [] else [LowerChar(s[0])] + ToLower(s[1..])
  }
}
