/**
 * The JavaScript string operations the core relies on, over `seq<char>`:
 * `split(",")`, `trim()`, `join(", ")`, `toLowerCase()` and `endsWith`.
 */
module Text {

  /** Characters removed by `String.prototype.trim`: white space and line terminators. */
  predicate IsWhitespace(c: char)
  {
    c == ' ' || c == '\t' || c == '\n' || c == '\r' || c == '\U{000B}' || c == '\U{000C}'
    || c == '\U{00A0}' || c == '\U{1680}' || ('\U{2000}' <= c <= '\U{200A}')
    || c == '\U{2028}' || c == '\U{2029}' || c == '\U{202F}' || c == '\U{205F}'
    || c == '\U{3000}' || c == '\U{FEFF}'
  }

  predicate CommaFree(s: string)
  {
    forall i :: 0 <= i < |s| ==> s[i] != ','
  }

  /** `s.split(",")`: the comma-free pieces between commas; never empty. */
  function Split(s: string): (parts: seq<string>)
    ensures |parts| >= 1
    ensures forall i :: 0 <= i < |parts| ==> CommaFree(parts[i])
  {
    if s == [] then [[]]
    else
      var rest := Split(s[1..]);
      if s[0] == ',' then [[]] + rest
      else [[s[0]] + rest[0]] + rest[1..]
  }

  /** The first piece of a split is the text up to the first comma. */
  lemma {:induction false} SplitFirstPiece(s: string)
    ensures |Split(s)[0]| <= |s| && Split(s)[0] == s[..|Split(s)[0]|]
    ensures |Split(s)[0]| < |s| ==> s[|Split(s)[0]|] == ','
  {
    if s != [] {
      SplitFirstPiece(s[1..]);
      var rest := Split(s[1..]);
      if s[0] != ',' {
        PrefixStep(s, rest[0]);
        assert Split(s)[0] == [s[0]] + rest[0];
      }
    }
  }

  /** A prefix of the tail up to a comma, with the head put back, is a prefix up to that comma. */
  lemma PrefixStep(s: string, p: string)
    requires s != [] && |p| <= |s| - 1 && p == s[1..][..|p|]
    requires |p| < |s| - 1 ==> s[1..][|p|] == ','
    ensures [s[0]] + p == s[..|p| + 1]
    ensures |p| + 1 < |s| ==> s[|p| + 1] == ','
  {
    assert s[..|p| + 1] == [s[0]] + s[1..][..|p|];
  }

  /** `parts.join(sep)`. */
  function Join(parts: seq<string>, sep: string): string
  {
    if parts == [] then []
    else if |parts| == 1 then parts[0]
    else parts[0] + sep + Join(parts[1..], sep)
  }

  /** Removes leading white space: the result is a suffix of `s` that does not start with white space. */
  function TrimStart(s: string): (r: string)
    ensures |r| <= |s| && r == s[|s| - |r|..]
    ensures r != [] ==> !IsWhitespace(r[0])
    ensures forall i :: 0 <= i < |s| - |r| ==> IsWhitespace(s[i])
  {
    if s != [] && IsWhitespace(s[0]) then TrimStart(s[1..]) else s
  }

  /** Removes trailing white space: the result is a prefix of `s` that does not end with white space. */
  function TrimEnd(s: string): (r: string)
    ensures |r| <= |s| && r == s[..|r|]
    ensures r != [] ==> !IsWhitespace(r[|r| - 1])
    ensures forall i :: |r| <= i < |s| ==> IsWhitespace(s[i])
  {
    if s != [] && IsWhitespace(s[|s| - 1]) then TrimEnd(s[..|s| - 1]) else s
  }

  /** `s.trim()`. */
  function Trim(s: string): string
  {
    TrimEnd(TrimStart(s))
  }

  /** Trimming twice is trimming once. */
  lemma TrimIdempotent(s: string)
    ensures Trim(Trim(s)) == Trim(s)
  {
    var y := TrimStart(s);
    var z := TrimEnd(y);
    if z != [] {
      assert z[0] == y[0];
    }
    assert TrimStart(z) == z;
  }

  /** A leading white-space character does not change the trimmed text. */
  lemma TrimAfterSpace(s: string, c: char)
    requires IsWhitespace(c)
    ensures Trim([c] + s) == Trim(s)
  {
    assert ([c] + s)[1..] == s;
  }

  /** Trimming never introduces a comma. */
  lemma TrimCommaFree(s: string)
    requires CommaFree(s)
    ensures CommaFree(Trim(s))
  {
    var y := TrimStart(s);
    var z := TrimEnd(y);
    SliceCommaFree(s, |s| - |y|, |s|);
    SliceCommaFree(y, 0, |z|);
    assert Trim(s) == z;
  }

  /** A slice of comma-free text is comma-free. */
  lemma SliceCommaFree(s: string, lo: int, hi: int)
    requires CommaFree(s) && 0 <= lo <= hi <= |s|
    ensures CommaFree(s[lo..hi])
  {
    forall i | 0 <= i < hi - lo ensures s[lo..hi][i] != ',' {
      assert s[lo..hi][i] == s[lo + i];
    }
  }

  /** Splitting comma-free text gives that text alone. */
  lemma {:induction false} SplitCommaFree(s: string)
    requires CommaFree(s)
    ensures Split(s) == [s]
  {
    if s != [] {
      SplitCommaFree(s[1..]);
      assert [s[0]] + s[1..] == s;
    }
  }

  /** Splitting `x + "," + y` for comma-free `x` gives `x` followed by the pieces of `y`. */
  lemma {:induction false} SplitAtComma(x: string, y: string)
    requires CommaFree(x)
    ensures Split(x + [','] + y) == [x] + Split(y)
  {
    if x == [] {
      assert (x + [','] + y)[1..] == y;
    } else {
      assert (x + [','] + y)[1..] == x[1..] + [','] + y;
      SplitAtComma(x[1..], y);
      assert [x[0]] + x[1..] == x;
    }
  }

  /** A character put in front of a text joins its first piece. */
  lemma SplitCons(c: char, s: string)
    requires c != ','
    ensures Split([c] + s) == [[c] + Split(s)[0]] + Split(s)[1..]
  {
    assert ([c] + s)[1..] == s;
  }

  /** One step of a `", "`-join: the first piece, a comma, a space, then the rest joined. */
  lemma JoinStep(parts: seq<string>)
    requires |parts| >= 2
    ensures Join(parts, ", ") == parts[0] + [','] + ([' '] + Join(parts[1..], ", "))
  {
    var tail := Join(parts[1..], ", ");
    assert Join(parts, ", ") == parts[0] + ", " + tail;
  }

  /** One step of a `", "`-join, seen through `split(",")`. */
  lemma SplitJoinStep(parts: seq<string>)
    requires |parts| >= 2 && CommaFree(parts[0])
    ensures Split(Join(parts, ", "))
         == [parts[0]] + [[' '] + Split(Join(parts[1..], ", "))[0]] + Split(Join(parts[1..], ", "))[1..]
  {
    var tail := Join(parts[1..], ", ");
    JoinStep(parts);
    SplitAtComma(parts[0], [' '] + tail);
    SplitCons(' ', tail);
    ChainPieces(Join(parts, ", "), parts[0], tail, Split);
  }

  /**
   * The step of the join lemma for any splitting `sp`: cutting at the first comma, then letting
   * the space join the first piece of the rest.
   */
  lemma ChainPieces(joined: string, x: string, tail: string, sp: string -> seq<string>)
    requires joined == x + [','] + ([' '] + tail)
    requires sp(x + [','] + ([' '] + tail)) == [x] + sp([' '] + tail)
    requires |sp(tail)| >= 1
    requires sp([' '] + tail) == [[' '] + sp(tail)[0]] + sp(tail)[1..]
    ensures sp(joined) == [x] + [[' '] + sp(tail)[0]] + sp(tail)[1..]
  {
    var rest := sp(tail);
    assert [x] + ([[' '] + rest[0]] + rest[1..]) == [x] + [[' '] + rest[0]] + rest[1..];
  }

  /**
   * Splitting the `", "`-join of comma-free pieces gives as many pieces back, each equal to the
   * original once trimmed.
   */
  lemma {:induction false} SplitJoinCommaSpace(parts: seq<string>)
    requires |parts| >= 1
    requires forall i :: 0 <= i < |parts| ==> CommaFree(parts[i])
    ensures |Split(Join(parts, ", "))| == |parts|
    ensures forall i :: 0 <= i < |parts| ==> Trim(Split(Join(parts, ", "))[i]) == Trim(parts[i])
  {
    if |parts| == 1 {
      SplitCommaFree(parts[0]);
    } else {
      var rest := Split(Join(parts[1..], ", "));
      SplitJoinCommaSpace(parts[1..]);
      SplitJoinStep(parts);
      TrimAfterSpace(rest[0], ' ');
      forall i | 0 <= i < |rest| ensures Trim(rest[i]) == Trim(parts[i + 1]) {
        assert parts[1..][i] == parts[i + 1];
      }
      PiecesAlike(parts, rest, Split(Join(parts, ", ")), Trim);
    }
  }

  /**
   * The step of the join lemma on plain sequences, for any normalisation `t` that ignores a
   * leading space: the pieces agree with `parts` under `t`.
   */
  lemma PiecesAlike(parts: seq<string>, rest: seq<string>, r: seq<string>, t: string -> string)
    requires |parts| >= 2 && |rest| == |parts| - 1
    requires forall i :: 0 <= i < |rest| ==> t(rest[i]) == t(parts[i + 1])
    requires t([' '] + rest[0]) == t(rest[0])
    requires r == [parts[0]] + [[' '] + rest[0]] + rest[1..]
    ensures |r| == |parts|
    ensures forall i :: 0 <= i < |parts| ==> t(r[i]) == t(parts[i])
  {
    forall i | 0 <= i < |parts| ensures t(r[i]) == t(parts[i]) {
      if i > 1 {
        assert r[i] == rest[i - 1];
      }
    }
  }

  /** `c.toLowerCase()` on the ASCII letters; every other character is kept. */
  function LowerChar(c: char): char
  {
    if 'A' <= c <= 'Z' then (c as int + 32) as char else c
  }

  /** `s.toLowerCase()`, letter by letter. */
  function ToLower(s: string): (r: string)
    ensures |r| == |s|
    ensures forall i :: 0 <= i < |s| ==> r[i] == LowerChar(s[i])
  {
    seq(|s|, i requires 0 <= i < |s| => LowerChar(s[i]))
  }

  /** The UTF-16 code units of one character: two (a surrogate pair) above U+FFFF, else one. */
  function Utf16Units(c: char): nat
  {
    if c as int > 0xFFFF then 2 else 1
  }

  /** `s.length`: JavaScript counts UTF-16 code units, not characters. */
  function Utf16Length(s: string): (n: nat)
    ensures |s| <= n <= 2 * |s|
    ensures s != [] ==> n == Utf16Length(s[..|s| - 1]) + Utf16Units(s[|s| - 1])
  {
    if s == [] then 0 else Utf16Length(s[..|s| - 1]) + Utf16Units(s[|s| - 1])
  }

  /** The length of a concatenation is the sum of the lengths. */
  lemma {:induction false} Utf16LengthAppend(a: string, b: string)
    ensures Utf16Length(a + b) == Utf16Length(a) + Utf16Length(b)
    decreases |b|
  {
    if b == [] {
      assert a + b == a;
    } else {
      var init := b[..|b| - 1];
      assert b == init + [b[|b| - 1]];
      assert (a + b)[..|a + b| - 1] == a + init;
      Utf16LengthAppend(a, init);
    }
  }

  /** Text without characters above U+FFFF has as many code units as characters. */
  lemma {:induction false} Utf16LengthBasic(s: string)
    requires forall i :: 0 <= i < |s| ==> s[i] as int <= 0xFFFF
    ensures Utf16Length(s) == |s|
  {
    if s != [] {
      Utf16LengthBasic(s[..|s| - 1]);
    }
  }

  /** Every character above U+FFFF adds a second code unit. */
  lemma {:induction false} Utf16LengthAstral(s: string)
    requires forall i :: 0 <= i < |s| ==> s[i] as int > 0xFFFF
    ensures Utf16Length(s) == 2 * |s|
  {
    if s != [] {
      Utf16LengthAstral(s[..|s| - 1]);
    }
  }

  /** `s.endsWith(suffix)`. */
  predicate EndsWith(s: string, suffix: string)
  {
    |suffix| <= |s| && s[|s| - |suffix|..] == suffix
  }
}
