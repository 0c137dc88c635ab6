/** Post-processing of the tool-recommendation flow: fail when the model gave no
    output, otherwise rewrite every placeholder logo URL so that it carries a
    keyword derived from the recommendation's task category. */
module Recommend {
  import opened Provider

  datatype Recommendation = Recommendation(
    name: string,
    logoUrl: string,
    description: string,
    websiteUrl: string,
    taskCategory: string)

  datatype RecommendInput = RecommendInput(query: string)

  datatype RecommendationsOutput = RecommendationsOutput(recommendations: seq<Recommendation>)

  /** The placeholder image service the model is told to use. */
  const PlaceholderBase: string := "https://picsum.photos/50/50"

  /** The keyword used when the category has no first word. */
  const DefaultKeyword: string := "abstract"

  // ------------------------------------------------------------ keyword

  /** `s.split(' ')[0]`: the text before the first space (all of `s` if it has none). */
  function FirstWord(s: string): (w: string)
    ensures |w| <= |s| && w == s[..|w|]
    ensures ' ' !in w
    ensures |w| == |s| || s[|w|] == ' '
  {
    if s == [] || s[0] == ' ' then [] else [s[0]] + FirstWord(s[1..])
  }

  /** `toLowerCase` on one character; only ASCII letters are mapped. The result
      is never an upper-case ASCII letter, and an upper-case letter becomes the
      same letter in lower case. */
  function LowerChar(c: char): (l: char)
    ensures !('A' <= l <= 'Z')
    ensures l != c ==> 'A' <= c <= 'Z' && 'a' <= l <= 'z' && l as int - 'a' as int == c as int - 'A' as int
  {
    if 'A' <= c <= 'Z' then (c as int + 32) as char else c
  }

  /** Lower-casing keeps the length and lower-cases each character on its own,
      so only upper-case ASCII letters change. */
  function ToLower(s: string): (r: string)
    ensures |r| == |s|
    ensures forall i :: 0 <= i < |r| ==> r[i] == LowerChar(s[i])
    ensures forall i :: 0 <= i < |r| ==> !('A' <= r[i] <= 'Z')
    ensures forall i :: 0 <= i < |r| ==> r[i] == s[i] || 'A' <= s[i] <= 'Z'
  {
    seq(|s|, i requires 0 <= i < |s| => LowerChar(s[i]))
  }

  /** `taskCategory.split(' ')[0].toLowerCase() || 'abstract'`. */
  function CategoryKeyword(category: string): (k: string)
    ensures k != []
  {
    var word := ToLower(FirstWord(category));
    if word == "" then DefaultKeyword else word
  }

  /** The first word is fixed by where the first space is: when the category
      starts with `n` non-space characters followed by a space or the end, the
      keyword is exactly those characters, lower-cased, punctuation kept. */
  lemma KeywordIsFirstWord(category: string, n: nat)
    requires 0 < n <= |category|
    requires ' ' !in category[..n]
    requires n == |category| || category[n] == ' '
    ensures CategoryKeyword(category) == ToLower(category[..n])
  {
  }

  /** An empty category, or one that starts with a space, gives the default keyword. */
  lemma KeywordDefault(category: string)
    requires category == [] || category[0] == ' '
    ensures CategoryKeyword(category) == DefaultKeyword
  {
  }

  /** Non-alphanumeric characters of the first word are not stripped. */
  lemma KeywordKeepsPunctuation()
    ensures CategoryKeyword("Text-to-Image Generation") == "text-to-image"
  {
    var a := "Text-to-Image Generation";
    assert a[..13] == "Text-to-Image";
    assert a[13] == ' ';
    assert ' ' !in a[..13];
    KeywordIsFirstWord(a, 13);
    LowerExample();
  }

  lemma LowerExample()
    ensures ToLower("Text-to-Image") == "text-to-image"
  {
    var r := ToLower("Text-to-Image");
    forall i | 0 <= i < 13
      ensures r[i] == "text-to-image"[i]
    {
    }
  }

  // ------------------------------------------------------ URI component

  /** The characters `encodeURIComponent` leaves as they are. */
  predicate Unreserved(c: char)
  {
    ('A' <= c <= 'Z') || ('a' <= c <= 'z') || ('0' <= c <= '9') || c in "-_.!~*'()"
  }

  predicate IsUpperHex(c: char)
  {
    ('0' <= c <= '9') || ('A' <= c <= 'F')
  }

  /** The digit an upper-case hex character stands for. */
  function HexValue(c: char): nat
    requires IsUpperHex(c)
  {
    if c <= '9' then c as int - '0' as int else c as int - 'A' as int + 10
  }

  /** The hex character for a digit below 16; reading it back gives the digit. */
  function HexDigit(d: nat): (c: char)
    requires d < 16
    ensures IsUpperHex(c)
    ensures HexValue(c) == d
  {
    if d < 10 then ('0' as int + d) as char else ('A' as int + d - 10) as char
  }

  /** The UTF-8 encoding of one code point. */
  function Utf8(c: char): (bytes: seq<nat>)
    ensures 1 <= |bytes| <= 4
    ensures forall k :: 0 <= k < |bytes| ==> bytes[k] < 256
  {
    var v := c as int;
    if v < 0x80 then [v]
    else if v < 0x800 then [0xC0 + v / 64, 0x80 + v % 64]
    else if v < 0x1_0000 then [0xE0 + v / 4096, 0x80 + (v / 64) % 64, 0x80 + v % 64]
    else [0xF0 + v / 262144, 0x80 + (v / 4096) % 64, 0x80 + (v / 64) % 64, 0x80 + v % 64]
  }

  /** Each byte as `%` and two upper-case hex digits. */
  function PercentEscape(bytes: seq<nat>): (e: string)
    requires forall k :: 0 <= k < |bytes| ==> bytes[k] < 256
    ensures |e| == 3 * |bytes|
    ensures forall i :: 0 <= i < |e| ==> e[i] == '%' || IsUpperHex(e[i])
  {
    if bytes == [] then []
    else ['%', HexDigit(bytes[0] / 16), HexDigit(bytes[0] % 16)] + PercentEscape(bytes[1..])
  }

  /** `encodeURIComponent` on a string of code points. */
  function EncodeUriComponent(s: string): (e: string)
    ensures |e| >= |s|
    ensures forall i :: 0 <= i < |e| ==> Unreserved(e[i]) || e[i] == '%' || IsUpperHex(e[i])
  {
    if s == [] then []
    else (if Unreserved(s[0]) then [s[0]] else PercentEscape(Utf8(s[0]))) + EncodeUriComponent(s[1..])
  }

  /** A string of unreserved characters is its own encoding. */
  lemma {:induction false} EncodeUnreserved(s: string)
    requires forall i :: 0 <= i < |s| ==> Unreserved(s[i])
    ensures EncodeUriComponent(s) == s
  {
    if s != [] {
      EncodeUnreserved(s[1..]);
    }
  }

  // ---------------------------------------------------------- decoding

  /** The length of the UTF-8 sequence a lead byte opens. */
  function Utf8Length(lead: nat): nat
  {
    if lead < 0x80 then 1 else if lead < 0xE0 then 2 else if lead < 0xF0 then 3 else 4
  }

  /** The code point a UTF-8 sequence of one to four bytes carries. */
  function Utf8Value(bytes: seq<nat>): int
  {
    var b := seq(|bytes|, k requires 0 <= k < |bytes| => bytes[k] as int);
    if |b| == 1 then b[0]
    else if |b| == 2 then (b[0] - 0xC0) * 64 + (b[1] - 0x80)
    else if |b| == 3 then (b[0] - 0xE0) * 4096 + (b[1] - 0x80) * 64 + (b[2] - 0x80)
    else if |b| == 4 then (b[0] - 0xF0) * 262144 + (b[1] - 0x80) * 4096 + (b[2] - 0x80) * 64 + (b[3] - 0x80)
    else -1
  }

  /** The code points of a string. */
  function CodePoints(s: string): (points: seq<int>)
    ensures |points| == |s|
    ensures forall i :: 0 <= i < |s| ==> points[i] == s[i] as int
  {
    seq(|s|, i requires 0 <= i < |s| => s[i] as int)
  }

  /** A run of `%XX` escapes read back as bytes; anything else is malformed. */
  function Unescape(e: string): (bytes: Option<seq<nat>>)
    ensures bytes.Some? ==> 3 * |bytes.value| == |e|
    ensures bytes.Some? && e != [] ==>
      (IsUpperHex(e[1]) && IsUpperHex(e[2]) && bytes.value[0] == HexValue(e[1]) * 16 + HexValue(e[2]))
  {
    if e == [] then Some([])
    else if 3 <= |e| && e[0] == '%' && IsUpperHex(e[1]) && IsUpperHex(e[2]) then
      match Unescape(e[3..])
      case None => None
      case Some(rest) => Some([HexValue(e[1]) * 16 + HexValue(e[2])] + rest)
    else None
  }

  /** The inverse of EncodeUriComponent on its upper-case output: a character
      other than `%` stands for itself, and `%XX` opens a UTF-8 sequence whose
      length its lead byte gives. A malformed escape has no decoding. */
  function DecodeUriComponent(e: string): Option<seq<int>>
  {
    if e == [] then Some([])
    else if e[0] != '%' then
      match DecodeUriComponent(e[1..])
      case None => None
      case Some(rest) => Some([e[0] as int] + rest)
    else if |e| < 3 || !IsUpperHex(e[1]) || !IsUpperHex(e[2]) then None
    else
      var n := Utf8Length(HexValue(e[1]) * 16 + HexValue(e[2]));
      if |e| < 3 * n then None
      else
        match Unescape(e[..3 * n])
        case None => None
        case Some(bytes) =>
          match DecodeUriComponent(e[3 * n..])
          case None => None
          case Some(rest) => Some([Utf8Value(bytes)] + rest)
  }

  /** UTF-8 round trip: the lead byte announces the sequence's length, and the
      sequence carries the character's code point. */
  lemma Utf8RoundTrip(c: char)
    ensures Utf8Length(Utf8(c)[0]) == |Utf8(c)|
    ensures Utf8Value(Utf8(c)) == c as int
  {
    var v := c as int;
    var q := v / 64;
    var q2 := q / 64;
    assert v == 64 * q + v % 64;
    assert q == 64 * q2 + q % 64;
    if 0x800 <= v {
      assert v == 4096 * q2 + (64 * (q % 64) + v % 64);
      assert v / 4096 == q2;
    }
    if 0x1_0000 <= v {
      var q3 := q2 / 64;
      assert q2 == 64 * q3 + q2 % 64;
      assert v == 262144 * q3 + (4096 * (q2 % 64) + 64 * (q % 64) + v % 64);
      assert v / 262144 == q3;
      assert (v / 4096) % 64 == q2 % 64;
    }
  }

  /** Escaping bytes and reading the escapes back gives the bytes. */
  lemma {:induction false} UnescapeEscape(bytes: seq<nat>)
    requires forall k :: 0 <= k < |bytes| ==> bytes[k] < 256
    ensures Unescape(PercentEscape(bytes)) == Some(bytes)
  {
    if bytes != [] {
      var e := PercentEscape(bytes);
      UnescapeEscape(bytes[1..]);
      assert e[3..] == PercentEscape(bytes[1..]);
      assert HexValue(e[1]) * 16 + HexValue(e[2]) == bytes[0];
      assert [bytes[0]] + bytes[1..] == bytes;
    }
  }

  /** Decoding the encoding of a string gives back its code points. */
  lemma {:induction false} DecodeEncode(s: string)
    ensures DecodeUriComponent(EncodeUriComponent(s)) == Some(CodePoints(s))
  {
    if s != [] {
      DecodeEncode(s[1..]);
      var rest := EncodeUriComponent(s[1..]);
      assert CodePoints(s) == [s[0] as int] + CodePoints(s[1..]);
      if Unreserved(s[0]) {
        DecodePlainStep(s[0], rest, CodePoints(s[1..]));
      } else {
        DecodeEscapedStep(s[0], rest, CodePoints(s[1..]));
      }
    }
  }

  /** An unreserved character decodes to itself, ahead of what follows it. */
  lemma {:induction false} DecodePlainStep(c: char, rest: string, points: seq<int>)
    requires Unreserved(c)
    requires DecodeUriComponent(rest) == Some(points)
    ensures DecodeUriComponent([c] + rest) == Some([c as int] + points)
  {
    var e := [c] + rest;
    assert e[0] == c;
    assert e[1..] == rest;
  }

  /** The escapes of one character decode to its code point, ahead of what follows them. */
  lemma {:induction false} DecodeEscapedStep(c: char, rest: string, points: seq<int>)
    requires DecodeUriComponent(rest) == Some(points)
    ensures DecodeUriComponent(PercentEscape(Utf8(c)) + rest) == Some([c as int] + points)
  {
    var bytes := Utf8(c);
    var chunk := PercentEscape(bytes);
    var e := chunk + rest;
    Utf8RoundTrip(c);
    UnescapeEscape(bytes);
    assert e[0] == '%' && e[1] == chunk[1] && e[2] == chunk[2];
    assert HexValue(e[1]) * 16 + HexValue(e[2]) == bytes[0];
    assert e[..3 * |bytes|] == chunk;
    assert e[3 * |bytes|..] == rest;
  }

  /** Different strings have different encodings. */
  lemma EncodeInjective(s: string, t: string)
    requires EncodeUriComponent(s) == EncodeUriComponent(t)
    ensures s == t
  {
    DecodeEncode(s);
    DecodeEncode(t);
    assert CodePoints(s) == CodePoints(t);
    forall i | 0 <= i < |s|
      ensures s[i] == t[i]
    {
      assert CodePoints(s)[i] == CodePoints(t)[i];
    }
  }

  // ----------------------------------------------------------- rewrite

  /** The logo URL a placeholder is replaced by: the placeholder base, then
      `?query=`, then the keyword percent-encoded, which is never empty and
      decodes back to the keyword. */
  function PlaceholderLogo(category: string): (url: string)
    ensures PlaceholderBase <= url
    ensures |url| > |PlaceholderBase + "?query="|
    ensures url[..|PlaceholderBase + "?query="|] == PlaceholderBase + "?query="
    ensures url[|PlaceholderBase + "?query="|..] == EncodeUriComponent(CategoryKeyword(category))
    ensures DecodeUriComponent(url[|PlaceholderBase + "?query="|..]) == Some(CodePoints(CategoryKeyword(category)))
  {
    var head := PlaceholderBase + "?query=";
    var keyword := CategoryKeyword(category);
    var query := EncodeUriComponent(keyword);
    DecodeEncode(keyword);
    assert |query| >= |keyword| > 0;
    var url := head + query;
    assert url[|head|..] == query;
    assert url[..|head|] == head;
    assert url[..|PlaceholderBase|] == head[..|PlaceholderBase|] == PlaceholderBase;
    url
  }

  /** The map's callback: only a placeholder logo URL is rewritten, and it is
      replaced whole, whatever followed the base before. */
  function WithLogo(rec: Recommendation): (r: Recommendation)
    ensures r.(logoUrl := rec.logoUrl) == rec
    ensures PlaceholderBase <= rec.logoUrl ==> r.logoUrl == PlaceholderLogo(rec.taskCategory)
    ensures !(PlaceholderBase <= rec.logoUrl) ==> r == rec
  {
    if PlaceholderBase <= rec.logoUrl then rec.(logoUrl := PlaceholderLogo(rec.taskCategory)) else rec
  }

  /** `output.recommendations.map(...)`: the same recommendations in the same
      order, none added, dropped or capped; each keeps every field but its logo URL. */
  function PostProcess(recs: seq<Recommendation>): (out: seq<Recommendation>)
    ensures |out| == |recs|
    ensures forall i :: 0 <= i < |recs| ==> out[i].(logoUrl := recs[i].logoUrl) == recs[i]
    ensures forall i :: 0 <= i < |recs| && !(PlaceholderBase <= recs[i].logoUrl) ==> out[i] == recs[i]
    ensures forall i :: 0 <= i < |recs| && PlaceholderBase <= recs[i].logoUrl ==>
      out[i].logoUrl == PlaceholderLogo(recs[i].taskCategory)
  {
    seq(|recs|, i requires 0 <= i < |recs| => WithLogo(recs[i]))
  }

  /** The recommendation flow after its one provider call: a provider exception
      propagates, a missing output is an explicit error (never an empty list),
      and an output is post-processed. */
  function RecommendAiShortcuts(reply: Reply<RecommendationsOutput>): (r: Result<RecommendationsOutput, Error>)
    ensures reply.Threw? ==> r == Failure(ProviderError(reply.message))
    ensures reply == Returned(None) <==> r == Failure(NoRecommendations)
    ensures r.Success? <==> reply.Returned? && reply.output.Some?
    ensures r.Success? ==> r.value.recommendations == PostProcess(reply.output.value.recommendations)
  {
    match reply
    case Threw(m) => Failure(ProviderError(m))
    case Returned(None) => Failure(NoRecommendations)
    case Returned(Some(output)) => Success(RecommendationsOutput(PostProcess(output.recommendations)))
  }

  /** Rewriting one recommendation twice is rewriting it once. */
  lemma WithLogoIdempotent(rec: Recommendation)
    ensures WithLogo(WithLogo(rec)) == WithLogo(rec)
  {
  }

  /** Post-processing is idempotent. */
  lemma PostProcessIdempotent(recs: seq<Recommendation>)
    ensures PostProcess(PostProcess(recs)) == PostProcess(recs)
  {
    var once := PostProcess(recs);
    forall i | 0 <= i < |recs|
      ensures PostProcess(once)[i] == once[i]
    {
      WithLogoIdempotent(recs[i]);
    }
  }
}
