/** The JavaScript string built-ins the program relies on, with the exact
    semantics of ECMA-262: `split("\n")`, `startsWith`, `replace` with a global
    regular expression and the empty replacement, and `trim`. */
module JsStrings {
  import opened Runtime

  /** `s.startsWith(prefix)`: `s` agrees with `prefix` on each of its
      positions. */
  predicate StartsWith(s: string, prefix: string): (b: bool)
    ensures b <==> |prefix| <= |s| && forall i :: 0 <= i < |prefix| ==> s[i] == prefix[i]
  {
    |prefix| <= |s| && s[..|prefix|] == prefix
  }

  /** `s` holds `t` starting at index `i`. */
  predicate OccursAt(s: string, t: string, i: nat) {
    i + |t| <= |s| && s[i..i + |t|] == t
  }

  // ---------------------------------------------------------------------------
  // split("\n") and its inverse join("\n")

  /** `s.split("\n")`: the segments between line feeds, in order. An empty string
      gives one empty segment, and only U+000A separates (a U+000D stays in its
      segment). */
  function Split(s: string): (lines: seq<string>)
    ensures |lines| >= 1
    ensures forall i :: 0 <= i < |lines| ==> '\n' !in lines[i]
  {
    if s == [] then [[]]
    else
      var rest := Split(s[1..]);
      if s[0] == '\n' then [[]] + rest
      else [[s[0]] + rest[0]] + rest[1..]
  }

  /** `lines.join("\n")`. */
  function Join(lines: seq<string>): string {
    if lines == [] then []
    else if |lines| == 1 then lines[0]
    else lines[0] + "\n" + Join(lines[1..])
  }

  lemma {:induction false} SplitCount(s: string)
    ensures |Split(s)| == Count(s, '\n') + 1
  {
    if s != [] {
      SplitCount(s[1..]);
    }
  }

  lemma {:induction false} JoinCons(c: char, lines: seq<string>)
    requires |lines| >= 1
    ensures Join([[c] + lines[0]] + lines[1..]) == [c] + Join(lines)
  {
  }

  /** Splitting loses nothing: joining the segments gives back the input. */
  lemma {:induction false} JoinSplit(s: string)
    ensures Join(Split(s)) == s
  {
    if s != [] {
      var rest := Split(s[1..]);
      JoinSplit(s[1..]);
      if s[0] == '\n' {
        assert Join([[]] + rest) == "\n" + Join(rest);
      } else {
        JoinCons(s[0], rest);
      }
      assert s == [s[0]] + s[1..];
    }
  }

  /** Any non-empty list of segments without line feeds is what splitting its
      join gives back. */
  lemma {:induction false} SplitJoin(lines: seq<string>)
    requires |lines| >= 1
    requires forall i :: 0 <= i < |lines| ==> '\n' !in lines[i]
    ensures Split(Join(lines)) == lines
  {
    if |lines| == 1 {
      SplitSingle(lines[0]);
    } else {
      SplitJoin(lines[1..]);
      SplitPrefix(lines[0], Join(lines[1..]));
      assert Join(lines) == lines[0] + ("\n" + Join(lines[1..]));
    }
  }

  /** A string without line feeds is one segment. */
  lemma {:induction false} SplitSingle(line: string)
    requires '\n' !in line
    ensures Split(line) == [line]
  {
    if line != [] {
      SplitSingle(line[1..]);
      assert line == [line[0]] + line[1..];
    }
  }

  /** A line followed by a line feed and a tail: the line is the first segment. */
  lemma {:induction false} SplitPrefix(line: string, tail: string)
    requires '\n' !in line
    ensures Split(line + "\n" + tail) == [line] + Split(tail)
  {
    if line == [] {
      assert line + "\n" + tail == ['\n'] + tail;
      assert (line + "\n" + tail)[1..] == tail;
    } else {
      var s := line + "\n" + tail;
      assert s[1..] == line[1..] + "\n" + tail;
      SplitPrefix(line[1..], tail);
      assert line == [line[0]] + line[1..];
    }
  }

  // ---------------------------------------------------------------------------
  // replace with the global patterns for one asterisk and for two

  /** `s.replace` with the global pattern for one asterisk and the empty
      replacement: every asterisk removed. */
  function RemoveStars(s: string): (r: string)
    ensures '*' !in r
    ensures |r| == |s| - Count(s, '*')
    ensures forall c :: c != '*' ==> Count(r, c) == Count(s, c)
  {
    if s == [] then []
    else if s[0] == '*' then RemoveStars(s[1..])
    else [s[0]] + RemoveStars(s[1..])
  }

  lemma {:induction false} RemoveStarsNoop(s: string)
    requires '*' !in s
    ensures RemoveStars(s) == s
  {
    if s != [] {
      RemoveStarsNoop(s[1..]);
      assert s == [s[0]] + s[1..];
    }
  }

  /** Removing asterisks from text that has none is the identity, so the
      operation is idempotent. */
  lemma RemoveStarsIdempotent(s: string)
    ensures RemoveStars(RemoveStars(s)) == RemoveStars(s)
  {
  }

  /** No two asterisks side by side. */
  predicate NoDoubleStar(s: string) {
    forall i :: 0 <= i < |s| - 1 ==> !(s[i] == '*' && s[i + 1] == '*')
  }

  /** `s.replace` with the global pattern for two asterisks and the empty
      replacement: the regular expression scans left to right and removes each
      pair `**` it meets, without overlap, so `***x` becomes `*x`. No `**` is
      left in the result, and text that does not start with an asterisk keeps
      its first character. */
  function RemoveDoubleStars(s: string): (r: string)
    ensures NoDoubleStar(r)
    ensures s != [] && s[0] != '*' ==> r != [] && r[0] == s[0]
  {
    if |s| >= 2 && s[0] == '*' && s[1] == '*' then RemoveDoubleStars(s[2..])
    else if s == [] then []
    else
      var rest := RemoveDoubleStars(s[1..]);
      assert s[0] == '*' ==> s[1..] == [] || s[1..][0] != '*';
      var r := [s[0]] + rest;
      assert forall i :: 1 <= i < |r| - 1 ==> r[i] == rest[i - 1] && r[i + 1] == rest[i];
      r
  }

  lemma RemoveStarsCons(c: char, x: string)
    ensures RemoveStars([c] + x) == (if c == '*' then [] else [c]) + RemoveStars(x)
  {
  }

  /** Removing asterisks works on each piece of the text on its own, so the
      kept characters stay in their order: with `RemoveStarsCons` on single
      characters this fixes the result. */
  lemma {:induction false} RemoveStarsAppend(a: string, b: string)
    ensures RemoveStars(a + b) == RemoveStars(a) + RemoveStars(b)
  {
    if a != [] {
      RemoveStarsAppend(a[1..], b);
      assert a + b == [a[0]] + (a[1..] + b);
      RemoveStarsCons(a[0], a[1..] + b);
      RemoveStarsCons(a[0], a[1..]);
      assert a == [a[0]] + a[1..];
    } else {
      assert a + b == b;
    }
  }

  /** The kept characters in order: a character other than `*` stays, and an
      asterisk is dropped. */
  lemma RemoveStarsChar(c: char)
    ensures RemoveStars([c]) == if c == '*' then [] else [c]
  {
  }

  /** Removing pairs of asterisks changes nothing but asterisks. */
  lemma {:induction false} RemoveDoubleStarsOnlyStars(s: string)
    ensures RemoveStars(RemoveDoubleStars(s)) == RemoveStars(s)
  {
    if |s| >= 2 && s[0] == '*' && s[1] == '*' {
      RemoveDoubleStarsOnlyStars(s[2..]);
      assert RemoveDoubleStars(s) == RemoveDoubleStars(s[2..]);
      assert s[1..][1..] == s[2..];
      assert RemoveStars(s[1..]) == RemoveStars(s[2..]);
      assert RemoveStars(s) == RemoveStars(s[1..]);
    } else if s != [] {
      var rest := RemoveDoubleStars(s[1..]);
      RemoveDoubleStarsOnlyStars(s[1..]);
      assert RemoveDoubleStars(s) == [s[0]] + rest;
      RemoveStarsCons(s[0], rest);
      assert RemoveStars(s) == (if s[0] == '*' then [] else [s[0]]) + RemoveStars(s[1..]);
    }
  }

  /** Removing pairs of asterisks removes an even number of characters. */
  lemma {:induction false} RemoveDoubleStarsLength(s: string)
    ensures |RemoveDoubleStars(s)| <= |s|
    ensures (|s| - |RemoveDoubleStars(s)|) % 2 == 0
  {
    if |s| >= 2 && s[0] == '*' && s[1] == '*' {
      RemoveDoubleStarsLength(s[2..]);
    } else if s != [] {
      RemoveDoubleStarsLength(s[1..]);
    }
  }

  lemma {:induction false} RemoveDoubleStarsNoop(s: string)
    requires NoDoubleStar(s)
    ensures RemoveDoubleStars(s) == s
  {
    if s != [] {
      RemoveDoubleStarsNoop(s[1..]);
      assert s == [s[0]] + s[1..];
    }
  }

  /** The scan never re-examines what it kept: a lone asterisk before a pair
      survives. */
  lemma TripleStar()
    ensures RemoveDoubleStars("***x") == "*x"
    ensures RemoveDoubleStars("****") == ""
  {
  }

  // ---------------------------------------------------------------------------
  // trim()

  /** The code points `String.prototype.trim` removes: WhiteSpace (section 12.2
      of ECMA-262: TAB, VT, FF, ZWNBSP and every space separator of category Zs)
      and LineTerminator (section 12.3: LF, CR, LS, PS). */
  predicate IsWhiteSpace(c: char) {
    || c == '\t' || c == '\U{000B}' || c == '\U{000C}' || c == '\U{FEFF}'
    || c == ' ' || c == '\U{00A0}' || c == '\U{1680}'
    || ('\U{2000}' <= c <= '\U{200A}')
    || c == '\U{202F}' || c == '\U{205F}' || c == '\U{3000}'
    || c == '\n' || c == '\r' || c == '\U{2028}' || c == '\U{2029}'
  }

  predicate AllWhiteSpace(s: string) {
    forall i :: 0 <= i < |s| ==> IsWhiteSpace(s[i])
  }

  /** Leading white space removed: `r` is a suffix of `s` and what was dropped
      is all white space. */
  function TrimStart(s: string): (r: string)
    ensures |r| <= |s| && r == s[|s| - |r|..]
    ensures AllWhiteSpace(s[..|s| - |r|])
    ensures r == [] || !IsWhiteSpace(r[0])
  {
    if s != [] && IsWhiteSpace(s[0]) then
      var r := TrimStart(s[1..]);
      assert s[..|s| - |r|] == [s[0]] + s[1..][..|s[1..]| - |r|];
      r
    else s
  }

  /** Trailing white space removed: `r` is a prefix of `s` and what was dropped
      is all white space. */
  function TrimEnd(s: string): (r: string)
    ensures |r| <= |s| && r == s[..|r|]
    ensures AllWhiteSpace(s[|r|..])
    ensures r == [] || !IsWhiteSpace(r[|r| - 1])
  {
    if s != [] && IsWhiteSpace(s[|s| - 1]) then
      var r := TrimEnd(s[..|s| - 1]);
      assert s[|r|..] == s[..|s| - 1][|r|..] + [s[|s| - 1]];
      r
    else s
  }

  /** `s` is the white space `s[..i]`, then `r`, then white space. */
  predicate Surrounds(s: string, r: string, i: nat) {
    i + |r| <= |s| && r == s[i..i + |r|]
    && AllWhiteSpace(s[..i]) && AllWhiteSpace(s[i + |r|..])
  }

  /** `s.trim()`: the result sits in `s` between white space on either side,
      and neither starts nor ends with white space. */
  function Trim(s: string): (r: string)
    ensures exists i :: Surrounds(s, r, i)
    ensures r == [] || (!IsWhiteSpace(r[0]) && !IsWhiteSpace(r[|r| - 1]))
  {
    var t := TrimStart(s);
    var r := TrimEnd(t);
    var i := |s| - |t|;
    assert t == s[i..];
    assert r == s[i..i + |r|];
    assert s[i + |r|..] == t[|r|..];
    assert Surrounds(s, r, i);
    r
  }

  /** A string trims to nothing exactly when it is all white space. */
  lemma TrimEmpty(s: string)
    ensures Trim(s) == [] <==> AllWhiteSpace(s)
  {
  }
}
