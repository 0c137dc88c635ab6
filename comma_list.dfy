/** The comma-separated model list of the forms:
    `raw.split(",").map(name => name.trim()).filter(name => name)`. */
module CommaList {

  /** `String.prototype.split(",")`: the pieces between commas, left to right.
      The empty string gives one empty piece, and a comma at either end gives an
      empty piece there. */
  function Split(s: string): (parts: seq<string>)
    ensures |parts| >= 1
    ensures forall i :: 0 <= i < |parts| ==> ',' !in parts[i]
    ensures forall i, k :: 0 <= i < |parts| && 0 <= k < |parts[i]| ==> parts[i][k] in s
    decreases |s|
  {
    if s == [] then [""]
    else
      var rest := Split(s[1..]);
      if s[0] == ',' then [""] + rest
      else [[s[0]] + rest[0]] + rest[1..]
  }

  /** The inverse of Split: the pieces with a comma between each two. */
  function Join(parts: seq<string>): string
    requires |parts| >= 1
  {
    if |parts| == 1 then parts[0] else parts[0] + "," + Join(parts[1..])
  }

  /** The number of commas in `s`. */
  function Commas(s: string): nat
  {
    multiset(s)[',']
  }

  /** The white space `String.prototype.trim` removes: ECMAScript's WhiteSpace
      and LineTerminator code points. */
  predicate IsWhitespace(c: char)
  {
    || ('\U{0009}' <= c <= '\U{000D}')
    || c == ' ' || c == '\U{00A0}' || c == '\U{1680}'
    || ('\U{2000}' <= c <= '\U{200A}')
    || c == '\U{2028}' || c == '\U{2029}' || c == '\U{202F}' || c == '\U{205F}'
    || c == '\U{3000}' || c == '\U{FEFF}'
  }

  /** `s` without its longest all-white-space prefix. */
  function TrimStart(s: string): (r: string)
    ensures |r| <= |s| && r == s[|s| - |r|..]
    ensures forall k :: 0 <= k < |s| - |r| ==> IsWhitespace(s[k])
    ensures r == [] || !IsWhitespace(r[0])
  {
    if s != [] && IsWhitespace(s[0]) then
      var r := TrimStart(s[1..]);
      assert s[1..][|s| - 1 - |r|..] == s[|s| - |r|..];
      r
    else s
  }

  /** `s` without its longest all-white-space suffix. */
  function TrimEnd(s: string): (r: string)
    ensures |r| <= |s| && r == s[..|r|]
    ensures forall k :: |r| <= k < |s| ==> IsWhitespace(s[k])
    ensures r == [] || !IsWhitespace(r[|r| - 1])
  {
    if s != [] && IsWhitespace(s[|s| - 1]) then
      var r := TrimEnd(s[..|s| - 1]);
      assert s[..|s| - 1][..|r|] == s[..|r|];
      r
    else s
  }

  /** `String.prototype.trim`: no white space is left at either end, and the
      result is no longer than the input (TrimShape: it is an infix of it). */
  function Trim(s: string): (r: string)
    ensures IsTrimmed(r)
    ensures |r| <= |s|
  {
    TrimEnds(s);
    TrimEnd(TrimStart(s))
  }

  /** Trimming both ends leaves no white space at either end. */
  lemma {:induction false} TrimEnds(s: string)
    ensures IsTrimmed(TrimEnd(TrimStart(s)))
  {
    var a := TrimStart(s);
    var t := TrimEnd(a);
    if t != [] {
      assert t[0] == a[0];
    }
  }

  /** A string that trim leaves as it is. */
  predicate IsTrimmed(s: string)
  {
    s == [] || (!IsWhitespace(s[0]) && !IsWhitespace(s[|s| - 1]))
  }

  /** `.map(name => name.trim())`: one trimmed name per piece, none longer
      than its piece; TrimAllSingle and TrimAllAppend fix each to be its
      piece's trim, in order. */
  function TrimAll(parts: seq<string>): (r: seq<string>)
    ensures |r| == |parts|
    ensures forall i :: 0 <= i < |r| ==> IsTrimmed(r[i])
    ensures forall i :: 0 <= i < |r| ==> |r[i]| <= |parts[i]|
  {
    seq(|parts|, i requires 0 <= i < |parts| => Trim(parts[i]))
  }

  /** `.filter(name => name)`: drops the empty strings and keeps the order. */
  function DropEmpty(names: seq<string>): (r: seq<string>)
    ensures |r| <= |names|
    ensures forall i :: 0 <= i < |r| ==> r[i] != [] && r[i] in names
  {
    if names == [] then []
    else if names[0] == [] then DropEmpty(names[1..])
    else [names[0]] + DropEmpty(names[1..])
  }

  /** The model list a form hands to its flow: every name is non-empty, has no
      white space at either end and holds no comma, and there are at most as
      many names as commas plus one. */
  function ParseList(raw: string): (names: seq<string>)
    ensures forall i :: 0 <= i < |names| ==> names[i] != [] && IsTrimmed(names[i]) && ',' !in names[i]
    ensures |names| <= Commas(raw) + 1
  {
    var parts := Split(raw);
    SplitCount(raw);
    CleanPieces(parts);
    DropEmpty(TrimAll(parts))
  }

  /** Trimmed comma-free pieces stay comma-free. */
  lemma {:induction false} CleanPieces(parts: seq<string>)
    requires forall i :: 0 <= i < |parts| ==> ',' !in parts[i]
    ensures forall i :: 0 <= i < |TrimAll(parts)| ==> ',' !in TrimAll(parts)[i]
  {
    var t := TrimAll(parts);
    forall i | 0 <= i < |t|
      ensures ',' !in t[i]
    {
      assert t[i] == Trim(parts[i]);
      TrimKeepsOut(parts[i], ',');
    }
  }

  // ---------------------------------------------------------------- trim

  /** Where the text Trim keeps starts in its input. */
  function TrimOffset(s: string): nat
  {
    |s| - |TrimStart(s)|
  }

  /** Trim gives back an infix of its input that starts and ends with no white space. */
  lemma {:induction false} TrimShape(s: string)
    ensures IsTrimmed(Trim(s))
    ensures TrimOffset(s) + |Trim(s)| <= |s|
    ensures Trim(s) == s[TrimOffset(s)..TrimOffset(s) + |Trim(s)|]
  {
    var a := TrimStart(s);
    var t := TrimEnd(a);
    if t != [] {
      assert t[0] == a[0];
    }
  }

  /** Everything trim cuts off, at either end, is white space. */
  lemma {:induction false} TrimCuts(s: string)
    ensures forall k :: 0 <= k < TrimOffset(s) ==> IsWhitespace(s[k])
    ensures forall k :: TrimOffset(s) + |Trim(s)| <= k < |s| ==> IsWhitespace(s[k])
  {
    var a := TrimStart(s);
    var t := TrimEnd(a);
    var off := |s| - |a|;
    assert TrimOffset(s) == off && Trim(s) == t;
    CutEnd(s, a, |t|);
  }

  /** When `a` is a suffix of `s` whose characters from `n` on are white space,
      so are the characters of `s` from `|s| - |a| + n` on. */
  lemma {:induction false} CutEnd(s: string, a: string, n: nat)
    requires |a| <= |s| && a == s[|s| - |a|..] && n <= |a|
    requires forall k :: n <= k < |a| ==> IsWhitespace(a[k])
    ensures forall k :: |s| - |a| + n <= k < |s| ==> IsWhitespace(s[k])
  {
    var off := |s| - |a|;
    forall k | off + n <= k < |s|
      ensures IsWhitespace(s[k])
    {
      assert s[k] == a[k - off];
    }
  }

  /** Trim leaves a string alone exactly when it has no white space at either end. */
  lemma {:induction false} TrimFixed(s: string)
    ensures Trim(s) == s <==> IsTrimmed(s)
  {
    TrimShape(s);
    if IsTrimmed(s) && s != [] {
      var a := TrimStart(s);
      assert !IsWhitespace(s[0]);
      assert a == s;
      assert !IsWhitespace(a[|a| - 1]);
    }
  }

  /** Trimming never brings in a character that was not there. */
  lemma {:induction false} TrimKeepsOut(s: string, c: char)
    requires c !in s
    ensures c !in Trim(s)
  {
    var t := Trim(s);
    forall k | 0 <= k < |t|
      ensures t[k] != c
    {
      assert t[k] in s;
    }
  }

  /** A string of white space alone trims to nothing. */
  lemma TrimAllWhitespace(s: string)
    requires forall k :: 0 <= k < |s| ==> IsWhitespace(s[k])
    ensures Trim(s) == []
  {
  }

  // --------------------------------------------------------------- split

  /** Split and Join are inverse: rejoining the pieces gives the input back. */
  lemma {:induction false} JoinSplit(s: string)
    ensures Join(Split(s)) == s
    decreases |s|
  {
    if s != [] {
      JoinSplit(s[1..]);
      var rest := Split(s[1..]);
      assert s == [s[0]] + s[1..];
      if s[0] == ',' {
        assert Split(s) == [""] + rest;
        JoinEmptyFront(rest);
      } else {
        assert Split(s) == [[s[0]] + rest[0]] + rest[1..];
        JoinExtendFront([s[0]], rest);
      }
    }
  }

  /** An empty piece in front adds a single comma to the join. */
  lemma {:induction false} JoinEmptyFront(rest: seq<string>)
    requires |rest| >= 1
    ensures Join([""] + rest) == "," + Join(rest)
  {
    var l := [""] + rest;
    assert l[1..] == rest;
    assert Join(l) == l[0] + "," + Join(l[1..]);
  }

  /** Extending the first piece at its front extends the join at its front. */
  lemma {:induction false} JoinExtendFront(x: string, rest: seq<string>)
    requires |rest| >= 1
    ensures Join([x + rest[0]] + rest[1..]) == x + Join(rest)
  {
    var parts := [x + rest[0]] + rest[1..];
    if |rest| == 1 {
      assert parts == [x + rest[0]];
    } else {
      var tail := Join(rest[1..]);
      assert parts[1..] == rest[1..];
      assert Join(parts) == (x + rest[0]) + "," + tail;
      assert Join(rest) == rest[0] + "," + tail;
      assert (x + rest[0]) + "," + tail == x + (rest[0] + "," + tail);
    }
  }

  /** Splitting at a comma splits the two sides independently, in order. */
  lemma {:induction false} SplitAppend(a: string, b: string)
    ensures Split(a + "," + b) == Split(a) + Split(b)
    decreases |a|
  {
    var s := a + "," + b;
    if a == [] {
      assert s[0] == ',' && s[1..] == b;
    } else {
      assert s[0] == a[0] && s[1..] == a[1..] + "," + b;
      SplitAppend(a[1..], b);
      var r := Split(a[1..]);
      if a[0] != ',' {
        assert (r + Split(b))[0] == r[0];
        assert (r + Split(b))[1..] == r[1..] + Split(b);
      }
    }
  }

  /** Comma-free pieces survive a Join and a Split unchanged. */
  lemma {:induction false} SplitJoin(parts: seq<string>)
    requires |parts| >= 1
    requires forall i :: 0 <= i < |parts| ==> ',' !in parts[i]
    ensures Split(Join(parts)) == parts
    decreases |parts|
  {
    SplitSingle(parts[0]);
    if |parts| > 1 {
      SplitJoin(parts[1..]);
      SplitAppend(parts[0], Join(parts[1..]));
      assert parts == [parts[0]] + parts[1..];
    }
  }

  /** A string without a comma is a single piece. */
  lemma {:induction false} SplitSingle(s: string)
    requires ',' !in s
    ensures Split(s) == [s]
    decreases |s|
  {
    if s != [] {
      assert forall k :: 0 <= k < |s[1..]| ==> s[1..][k] == s[k + 1];
      SplitSingle(s[1..]);
      assert [s[0]] + s[1..] == s;
    }
  }

  /** Split gives one piece more than there are commas. */
  lemma {:induction false} SplitCount(s: string)
    ensures |Split(s)| == Commas(s) + 1
    decreases |s|
  {
    if s != [] {
      SplitCount(s[1..]);
      assert s == [s[0]] + s[1..];
      assert multiset(s) == multiset([s[0]]) + multiset(s[1..]);
    }
  }

  // --------------------------------------------------------------- parse

  /** Map and filter both work piece by piece, so they distribute over concatenation. */
  lemma {:induction false} TrimAllAppend(x: seq<string>, y: seq<string>)
    ensures TrimAll(x + y) == TrimAll(x) + TrimAll(y)
  {
    var l, r := TrimAll(x + y), TrimAll(x) + TrimAll(y);
    assert |l| == |r|;
    forall i | 0 <= i < |l|
      ensures l[i] == r[i]
    {
      assert l[i] == Trim((x + y)[i]);
      if i < |x| {
        assert (x + y)[i] == x[i];
        assert r[i] == TrimAll(x)[i] == Trim(x[i]);
      } else {
        assert (x + y)[i] == y[i - |x|];
        assert r[i] == TrimAll(y)[i - |x|] == Trim(y[i - |x|]);
      }
    }
  }

  lemma {:induction false} DropEmptyAppend(x: seq<string>, y: seq<string>)
    ensures DropEmpty(x + y) == DropEmpty(x) + DropEmpty(y)
    decreases |x|
  {
    if x != [] {
      var xy := x + y;
      assert xy != [] && xy[0] == x[0];
      assert xy[1..] == x[1..] + y;
      DropEmptyAppend(x[1..], y);
      if x[0] == [] {
        calc {
          DropEmpty(xy);
          DropEmpty(xy[1..]);
          DropEmpty(x[1..]) + DropEmpty(y);
          DropEmpty(x) + DropEmpty(y);
        }
      } else {
        calc {
          DropEmpty(xy);
          [x[0]] + DropEmpty(xy[1..]);
          [x[0]] + (DropEmpty(x[1..]) + DropEmpty(y));
          ([x[0]] + DropEmpty(x[1..])) + DropEmpty(y);
          DropEmpty(x) + DropEmpty(y);
        }
      }
    } else {
      assert x + y == y;
    }
  }

  /** The names keep their left-to-right order: the names before a comma come
      first, then the names after it. */
  lemma {:induction false} ParseAppend(a: string, b: string)
    ensures ParseList(a + "," + b) == ParseList(a) + ParseList(b)
  {
    SplitAppend(a, b);
    TrimAllAppend(Split(a), Split(b));
    DropEmptyAppend(TrimAll(Split(a)), TrimAll(Split(b)));
  }

  /** A comma-free entry parses to its trimmed self, or to nothing when it is blank. */
  lemma {:induction false} ParseSingle(s: string)
    requires ',' !in s
    ensures ParseList(s) == if Trim(s) == [] then [] else [Trim(s)]
  {
    SplitSingle(s);
    var t := TrimAll([s]);
    assert |t| == 1 && t[0] == Trim(s);
    assert t == [Trim(s)];
    if Trim(s) == [] {
      assert DropEmpty(t) == DropEmpty(t[1..]);
    } else {
      assert DropEmpty(t) == [t[0]] + DropEmpty(t[1..]);
    }
  }

  /** Input of nothing but commas and white space passes the schema's
      non-empty check yet parses to no names at all. */
  lemma ParseOnlySeparators(raw: string)
    requires forall k :: 0 <= k < |raw| ==> raw[k] == ',' || IsWhitespace(raw[k])
    ensures ParseList(raw) == []
  {
    var parts := Split(raw);
    var trimmed := TrimAll(parts);
    forall j | 0 <= j < |parts|
      ensures trimmed[j] == []
    {
      forall k | 0 <= k < |parts[j]|
        ensures IsWhitespace(parts[j][k])
      {
        assert parts[j][k] in raw;
        assert parts[j][k] != ',';
      }
      TrimAllWhitespace(parts[j]);
    }
    EmptiesDrop(trimmed);
  }

  /** The map on one piece is trim of that piece. */
  lemma {:induction false} TrimAllSingle(x: string)
    ensures TrimAll([x]) == [Trim(x)]
  {
    assert TrimAll([x])[0] == Trim(x);
  }

  /** The filter on one name: an empty name is dropped, any other kept. */
  lemma {:induction false} DropEmptySingle(x: string)
    ensures DropEmpty([x]) == if x == [] then [] else [x]
  {
    assert [x][1..] == [];
  }

  /** The filter keeps every non-empty name of its input. */
  lemma {:induction false} DropEmptyKeeps(names: seq<string>)
    ensures forall i :: 0 <= i < |names| && names[i] != [] ==> names[i] in DropEmpty(names)
    decreases |names|
  {
    if names != [] {
      DropEmptyKeeps(names[1..]);
      forall i | 0 <= i < |names| && names[i] != []
        ensures names[i] in DropEmpty(names)
      {
        if i > 0 {
          assert names[i] == names[1..][i - 1];
        }
      }
    }
  }

  lemma {:induction false} EmptiesDrop(names: seq<string>)
    requires forall j :: 0 <= j < |names| ==> names[j] == []
    ensures DropEmpty(names) == []
    decreases |names|
  {
    if names != [] {
      EmptiesDrop(names[1..]);
    }
  }

  /** A name with no comma and no white space at its ends is one whole entry. */
  lemma {:induction false} ParseName(s: string)
    requires s != [] && ',' !in s && IsTrimmed(s)
    ensures ParseList(s) == [s]
  {
    TrimFixed(s);
    ParseSingle(s);
  }

  /** Two such names joined by a comma parse to exactly those two names. */
  lemma {:induction false} ParseTwo(a: string, b: string)
    requires a != [] && ',' !in a && IsTrimmed(a)
    requires b != [] && ',' !in b && IsTrimmed(b)
    ensures ParseList(a + "," + b) == [a, b]
  {
    ParseAppend(a, b);
    ParseName(a);
    ParseName(b);
  }

  /** A clean name before a comma is the first parsed name, ahead of the rest. */
  lemma {:induction false} ParseCons(a: string, rest: string)
    requires a != [] && ',' !in a && IsTrimmed(a)
    ensures ParseList(a + "," + rest) == [a] + ParseList(rest)
  {
    ParseAppend(a, rest);
    ParseName(a);
  }

  /** Three such names joined by commas parse to exactly those three names. */
  lemma {:induction false} ParseThree(a: string, b: string, c: string)
    requires a != [] && ',' !in a && IsTrimmed(a)
    requires b != [] && ',' !in b && IsTrimmed(b)
    requires c != [] && ',' !in c && IsTrimmed(c)
    ensures ParseList(a + "," + b + "," + c) == [a, b, c]
  {
    var tail := b + "," + c;
    assert ParseList(a + "," + tail) == [a, b, c] by {
      ParseCons(a, tail);
      ParseTwo(b, c);
    }
    assert a + "," + b + "," + c == a + "," + tail;
  }
}
