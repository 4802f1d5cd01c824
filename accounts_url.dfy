/**
 * accounts: the URL of an account or wallet, as accounts/url_test.go
 * exercises it. A URL is a scheme and a path. Parsing splits the text at
 * "://" and needs exactly two parts with a non-empty scheme. Printing
 * joins them back, or gives the bare path when there is no scheme. The
 * JSON form is the printed URL as a JSON string. Comparison orders by
 * scheme, then by path.
 *
 * JSON text is a sequence of characters here; its UTF-8 byte encoding is
 * not modelled.
 */
module AccountsUrl {
  import opened Wrappers
  import opened Encoding

  datatype URL = URL(scheme: string, path: string)

  const SchemeSeparator: string := "://"

  /** The separator starts at index i of s. */
  predicate SepAt(s: string, i: nat)
  {
    i + 3 <= |s| && s[i..i + 3] == SchemeSeparator
  }

  /** s holds no separator. */
  predicate NoSep(s: string)
  {
    forall i: nat :: i < |s| ==> !SepAt(s, i)
  }

  /** The first separator at or after index `from`. */
  function FindSep(s: string, from: nat): (r: Option<nat>)
    requires from <= |s|
    ensures r.Some? ==> from <= r.value && SepAt(s, r.value)
    ensures r.Some? ==> forall k: nat :: from <= k < r.value ==> !SepAt(s, k)
    ensures r.None? ==> forall k: nat :: from <= k ==> !SepAt(s, k)
    decreases |s| - from
  {
    if from + 3 > |s| then None
    else if s[from..from + 3] == SchemeSeparator then Some(from)
    else FindSep(s, from + 1)
  }

  /**
   * parseURL: strings.Split at "://" must give exactly two parts (one
   * separator) and the scheme must be non-empty.
   */
  function ParseURL(url: string): (r: Result<URL, string>)
    ensures r.Ok? ==> r.value.scheme != [] && NoSep(r.value.scheme) && NoSep(r.value.path)
    ensures r.Ok? ==> url == r.value.scheme + SchemeSeparator + r.value.path
    ensures NoSep(url) ==> r.Err?
  {
    match FindSep(url, 0)
    case None => Err("protocol scheme missing")
    case Some(i) =>
      var scheme, path := url[..i], url[i + 3..];
      if scheme == [] || FindSep(path, 0).Some? then Err("protocol scheme missing")
      else
        assert NoSep(scheme) by {
          forall k: nat | k < |scheme| ensures !SepAt(scheme, k) {
            if SepAt(scheme, k) {
              assert url[k..k + 3] == scheme[k..k + 3];
              assert SepAt(url, k);
            }
          }
        }
        Ok(URL(scheme, path))
  }

  /** URL.String: scheme "://" path, or the bare path without a scheme. */
  function String(u: URL): (s: string)
    ensures u.scheme == [] ==> s == u.path
    ensures u.scheme != [] ==>
              |s| == |u.scheme| + 3 + |u.path| && s[..|u.scheme|] == u.scheme && SepAt(s, |u.scheme|) &&
              s[|u.scheme| + 3..] == u.path
  {
    if u.scheme != [] then u.scheme + SchemeSeparator + u.path else u.path
  }

  /** No separator can straddle the end of a separator-free scheme and the separator after it. */
  lemma FirstSepAfterScheme(scheme: string, path: string)
    requires NoSep(scheme)
    ensures FindSep(scheme + SchemeSeparator + path, 0) == Some(|scheme|)
  {
    var s := scheme + SchemeSeparator + path;
    assert SepAt(s, |scheme|) by {
      assert s[|scheme|..|scheme| + 3] == SchemeSeparator;
    }
    forall k: nat | k < |scheme|
      ensures !SepAt(s, k)
    {
      if k + 3 <= |scheme| {
        assert s[k..k + 3] == scheme[k..k + 3];
        assert !SepAt(scheme, k);
      } else {
        // the window ends inside the separator, whose ':' is not a '/'
        assert s[|scheme|] == ':' && s[k..k + 3][|scheme| - k] == s[|scheme|];
      }
    }
    FindSepFirst(s, 0, |scheme|);
  }

  /** The search from `from` stops at the first separator. */
  lemma {:induction false} FindSepFirst(s: string, from: nat, i: nat)
    requires from <= i && SepAt(s, i)
    requires forall k: nat :: from <= k < i ==> !SepAt(s, k)
    ensures FindSep(s, from) == Some(i)
    decreases i - from
  {
    if from < i {
      assert !SepAt(s, from);
      FindSepFirst(s, from + 1, i);
    }
  }

  /** Printing a URL with a scheme and no separator in its parts, then parsing, gives it back. */
  lemma ParsePrintRoundTrip(u: URL)
    requires u.scheme != [] && NoSep(u.scheme) && NoSep(u.path)
    ensures ParseURL(String(u)) == Ok(u)
  {
    var s := String(u);
    FirstSepAfterScheme(u.scheme, u.path);
    assert s[..|u.scheme|] == u.scheme;
    assert s[|u.scheme| + 3..] == u.path;
    assert FindSep(u.path, 0).None?;
  }

  /** Parsing, then printing, gives the text back. */
  lemma PrintParseRoundTrip(url: string)
    requires ParseURL(url).Ok?
    ensures String(ParseURL(url).value) == url
  {
  }

  /** The JSON escape of one character, as encoding/json writes it (HTML-safe). */
  function EscapeChar(c: char): (e: string)
    ensures |e| >= 1
  {
    if c == '"' then "\\\""
    else if c == '\\' then "\\\\"
    else if c == '\n' then "\\n"
    else if c == '\r' then "\\r"
    else if c == '\t' then "\\t"
    else if c < ' ' || c == '<' || c == '>' || c == '&' then
      "\\u00" + [HexDigit(c as int / 16), HexDigit(c as int % 16)]
    else if c == '\U{2028}' then "\\u2028"
    else if c == '\U{2029}' then "\\u2029"
    else [c]
  }

  function Escape(s: string): string
  {
    if s == [] then [] else EscapeChar(s[0]) + Escape(s[1..])
  }

  /** json.Marshal of a string. */
  function Quote(s: string): (q: string)
    ensures |q| >= 2 && q[0] == '"' && q[|q| - 1] == '"'
  {
    "\"" + Escape(s) + "\""
  }

  /** A JSON hex digit, either case. */
  function JsonHexValue(c: char): (r: int)
    ensures -1 <= r < 16
  {
    if 'A' <= c <= 'F' then c as int - 'A' as int + 10 else HexDigitValue(c)
  }

  /** The value of the four hex digits of a \u escape, or None. */
  function Hex4(t: string): (r: Option<nat>)
    requires |t| == 4
    ensures r.Some? ==> r.value < 0x10000
  {
    var a, b, c, d := JsonHexValue(t[0]), JsonHexValue(t[1]), JsonHexValue(t[2]), JsonHexValue(t[3]);
    if a < 0 || b < 0 || c < 0 || d < 0 then None
    else Some(((a * 16 + b) * 16 + c) * 16 + d)
  }

  /**
   * The body of a JSON string literal: escapes are decoded, and an
   * unescaped quote or control character is an error. A \u escape naming
   * a surrogate is rejected (surrogate pairs are not modelled).
   */
  function DecodeBody(t: string): (r: Result<string, string>)
    decreases |t|
  {
    if t == [] then Ok([])
    else if t[0] == '\\' then
      if |t| < 2 then Err("unexpected end of JSON input")
      else
        var e := t[1];
        var simple :=
          if e == '"' then Some('"') else if e == '\\' then Some('\\') else if e == '/' then Some('/')
          else if e == 'b' then Some('\U{8}') else if e == 'f' then Some('\U{c}')
          else if e == 'n' then Some('\n') else if e == 'r' then Some('\r') else if e == 't' then Some('\t')
          else None;
        if simple.Some? then Prepend(simple.value, DecodeBody(t[2..]))
        else if e == 'u' && |t| >= 6 then
          match Hex4(t[2..6])
          case None => Err("invalid escape")
          case Some(v) =>
            if 0xD800 <= v < 0xE000 then Err("invalid escape")
            else Prepend(v as char, DecodeBody(t[6..]))
        else Err("invalid escape")
    else if t[0] == '"' || t[0] < ' ' then Err("invalid character in string literal")
    else Prepend(t[0], DecodeBody(t[1..]))
  }

  function Prepend(c: char, r: Result<string, string>): Result<string, string>
  {
    if r.Ok? then Ok([c] + r.value) else r
  }

  /** The white space JSON allows around a value. */
  predicate JsonSpace(c: char)
  {
    c == ' ' || c == '\t' || c == '\n' || c == '\r'
  }

  /** s without its leading white space. */
  function TrimLeft(s: string): (r: string)
    ensures |r| <= |s| && r == s[|s| - |r|..]
    ensures r != [] ==> !JsonSpace(r[0])
    ensures forall i :: 0 <= i < |s| - |r| ==> JsonSpace(s[i])
  {
    if s != [] && JsonSpace(s[0]) then TrimLeft(s[1..]) else s
  }

  /** s without its trailing white space. */
  function TrimRight(s: string): (r: string)
    ensures |r| <= |s| && r == s[..|r|]
    ensures r != [] ==> !JsonSpace(r[|r| - 1])
    ensures forall i :: |r| <= i < |s| ==> JsonSpace(s[i])
  {
    if s != [] && JsonSpace(s[|s| - 1]) then TrimRight(s[..|s| - 1]) else s
  }

  /** s without the white space around its value. */
  function TrimSpace(s: string): string
  {
    TrimRight(TrimLeft(s))
  }

  /**
   * json.Unmarshal into a string: white space around the value is skipped;
   * `null` leaves the string empty; otherwise the value must be a quoted
   * literal, which is decoded.
   */
  function Unquote(text: string): (r: Result<string, string>)
  {
    var t := TrimSpace(text);
    if t == "null" then Ok("")
    else if |t| >= 2 && t[0] == '"' && t[|t| - 1] == '"' then DecodeBody(t[1..|t| - 1])
    else Err("invalid JSON string")
  }

  /** Leading white space is dropped. */
  lemma {:induction false} TrimLeftSkipsSpace(pre: string, x: string)
    requires forall i :: 0 <= i < |pre| ==> JsonSpace(pre[i])
    requires x != [] && !JsonSpace(x[0])
    ensures TrimLeft(pre + x) == x
  {
    if pre != [] {
      assert (pre + x)[1..] == pre[1..] + x;
      TrimLeftSkipsSpace(pre[1..], x);
    } else {
      assert pre + x == x;
    }
  }

  /** Trailing white space is dropped. */
  lemma {:induction false} TrimRightSkipsSpace(x: string, post: string)
    requires forall i :: 0 <= i < |post| ==> JsonSpace(post[i])
    requires x != [] && !JsonSpace(x[|x| - 1])
    ensures TrimRight(x + post) == x
  {
    if post != [] {
      assert (x + post)[..|x + post| - 1] == x + post[..|post| - 1];
      TrimRightSkipsSpace(x, post[..|post| - 1]);
    } else {
      assert x + post == x;
    }
  }

  /** A value that starts and ends with a non-space character loses exactly the white space around it. */
  lemma TrimSpaceAround(pre: string, x: string, post: string)
    requires forall i :: 0 <= i < |pre| ==> JsonSpace(pre[i])
    requires forall i :: 0 <= i < |post| ==> JsonSpace(post[i])
    requires x != [] && !JsonSpace(x[0]) && !JsonSpace(x[|x| - 1])
    ensures TrimSpace(pre + x + post) == x
  {
    assert pre + x + post == pre + (x + post);
    TrimLeftSkipsSpace(pre, x + post);
    TrimRightSkipsSpace(x, post);
  }

  /** White space around such a value does not change what it decodes to. */
  lemma UnquoteSkipsSpace(pre: string, x: string, post: string)
    requires forall i :: 0 <= i < |pre| ==> JsonSpace(pre[i])
    requires forall i :: 0 <= i < |post| ==> JsonSpace(post[i])
    requires x != [] && !JsonSpace(x[0]) && !JsonSpace(x[|x| - 1])
    ensures Unquote(pre + x + post) == Unquote(x)
  {
    TrimSpaceAround(pre, x, post);
    TrimSpaceAround([], x, []);
    assert [] + x + [] == x;
  }

  /** The characters with a two-character escape. */
  predicate ShortEscaped(c: char)
  {
    c == '"' || c == '\\' || c == '\n' || c == '\r' || c == '\t'
  }

  /** The characters written as \u00XX. */
  predicate HexEscaped(c: char)
  {
    !ShortEscaped(c) && (c < ' ' || c == '<' || c == '>' || c == '&')
  }

  lemma DecodeShortEscape(c: char, rest: string)
    requires ShortEscaped(c)
    ensures DecodeBody(EscapeChar(c) + rest) == Prepend(c, DecodeBody(rest))
  {
    var t := EscapeChar(c) + rest;
    assert t[2..] == rest;
  }

  lemma DecodeHexEscape(c: char, rest: string)
    requires HexEscaped(c)
    ensures DecodeBody(EscapeChar(c) + rest) == Prepend(c, DecodeBody(rest))
  {
    var hi, lo := c as int / 16, c as int % 16;
    var t := EscapeChar(c) + rest;
    assert EscapeChar(c) == "\\u00" + [HexDigit(hi), HexDigit(lo)];
    HexDigitRoundTrip(hi);
    HexDigitRoundTrip(lo);
    assert t[2..6] == ['0', '0', HexDigit(hi), HexDigit(lo)];
    assert Hex4(t[2..6]) == Some(c as int);
    assert t[6..] == rest;
  }

  lemma DecodeSeparatorEscape(c: char, rest: string)
    requires c == '\U{2028}' || c == '\U{2029}'
    ensures DecodeBody(EscapeChar(c) + rest) == Prepend(c, DecodeBody(rest))
  {
    var t := EscapeChar(c) + rest;
    assert t[2..6] == EscapeChar(c)[2..6];
    assert t[6..] == rest;
  }

  /** Decoding one escaped character in front of more text yields that character in front. */
  lemma DecodeEscapeChar(c: char, rest: string)
    ensures DecodeBody(EscapeChar(c) + rest) == Prepend(c, DecodeBody(rest))
  {
    if ShortEscaped(c) {
      DecodeShortEscape(c, rest);
    } else if HexEscaped(c) {
      DecodeHexEscape(c, rest);
    } else if c == '\U{2028}' || c == '\U{2029}' {
      DecodeSeparatorEscape(c, rest);
    } else {
      var t := EscapeChar(c) + rest;
      assert t[1..] == rest;
    }
  }

  /** The escaped text of any string decodes back to it. */
  lemma {:induction false} EscapeRoundTrip(s: string)
    ensures DecodeBody(Escape(s)) == Ok(s)
  {
    if s != [] {
      EscapeRoundTrip(s[1..]);
      DecodeEscapeChar(s[0], Escape(s[1..]));
      assert [s[0]] + s[1..] == s;
    }
  }

  /** json.Unmarshal inverts json.Marshal on strings. */
  lemma QuoteRoundTrip(s: string)
    ensures Unquote(Quote(s)) == Ok(s)
  {
    var q := Quote(s);
    TrimLeftSkipsSpace([], q);
    TrimRightSkipsSpace(q, []);
    assert TrimSpace(q) == q;
    assert q != "null";
    assert q[1..|q| - 1] == Escape(s);
    EscapeRoundTrip(s);
  }

  /** URL.MarshalJSON: the printed URL as a JSON string; it does not fail. */
  function MarshalJSON(u: URL): (r: Result<string, string>)
    ensures r.Ok? && Unquote(r.value) == Ok(String(u))
  {
    QuoteRoundTrip(String(u));
    Ok(Quote(String(u)))
  }

  /**
   * URL.UnmarshalJSON on the receiver u: the JSON value is decoded as
   * json.Unmarshal decodes a string (null giving the empty text) and
   * parsed; on success the receiver takes the parsed scheme and path, on
   * any error it is left as it was and the error is returned.
   */
  function UnmarshalJSON(u: URL, input: string): (r: (URL, Option<string>))
    ensures Unquote(input).Ok? && ParseURL(Unquote(input).value).Ok? ==>
              r == (ParseURL(Unquote(input).value).value, None)
    ensures Unquote(input).Err? ==> r == (u, Some(Unquote(input).error))
    ensures Unquote(input).Ok? && ParseURL(Unquote(input).value).Err? ==>
              r == (u, Some(ParseURL(Unquote(input).value).error))
  {
    match Unquote(input)
    case Err(e) => (u, Some(e))
    case Ok(text) =>
      match ParseURL(text)
      case Err(e) => (u, Some(e))
      case Ok(parsed) => (URL(parsed.scheme, parsed.path), None)
  }

  /** Unmarshalling what MarshalJSON wrote restores a URL that parses back from its print. */
  lemma JSONRoundTrip(u: URL, receiver: URL)
    requires u.scheme != [] && NoSep(u.scheme) && NoSep(u.path)
    ensures UnmarshalJSON(receiver, MarshalJSON(u).value) == (u, None)
  {
    ParsePrintRoundTrip(u);
  }

  /** strings.Compare: lexicographic order of code points (the order of their UTF-8 bytes). */
  function Compare(a: string, b: string): (r: int)
    ensures -1 <= r <= 1
    ensures r == 0 <==> a == b
  {
    if a == [] && b == [] then 0
    else if a == [] then -1
    else if b == [] then 1
    else if a[0] < b[0] then -1
    else if a[0] > b[0] then 1
    else
      var rest := Compare(a[1..], b[1..]);
      assert a == [a[0]] + a[1..] && b == [b[0]] + b[1..];
      rest
  }

  /** URL.Cmp: by path when the schemes agree, else by scheme. */
  function Cmp(u: URL, other: URL): (r: int)
    ensures -1 <= r <= 1
    ensures r == 0 <==> u == other
    ensures u.scheme != other.scheme ==> r == Compare(u.scheme, other.scheme)
  {
    if u.scheme == other.scheme then Compare(u.path, other.path) else Compare(u.scheme, other.scheme)
  }

  /** Swapping the operands negates the comparison. */
  lemma {:induction false} CompareAntisymmetric(a: string, b: string)
    ensures Compare(a, b) == -Compare(b, a)
  {
    if a != [] && b != [] && a[0] == b[0] {
      CompareAntisymmetric(a[1..], b[1..]);
    }
  }

  /** Cmp is antisymmetric too. */
  lemma CmpAntisymmetric(u: URL, other: URL)
    ensures Cmp(u, other) == -Cmp(other, u)
  {
    CompareAntisymmetric(u.path, other.path);
    CompareAntisymmetric(u.scheme, other.scheme);
  }

  /** A proper prefix sorts first. */
  lemma {:induction false} PrefixSortsFirst(a: string, b: string)
    requires |a| < |b| && b[..|a|] == a
    ensures Compare(a, b) == -1
  {
    if a != [] {
      assert a[1..] == b[1..][..|a| - 1];
      PrefixSortsFirst(a[1..], b[1..]);
    }
  }

  /** Without a colon there is no separator. */
  lemma NoColonNoSep(s: string)
    requires ':' !in s
    ensures NoSep(s)
  {
    forall i: nat | i < |s| ensures !SepAt(s, i) {
      assert s[i] in s;
    }
  }

  /** The cases of url_test.go. */
  lemma TestedParsing()
    ensures ParseURL("https://sophon.org") == Ok(URL("https", "sophon.org"))
  {
    var u := URL("https", "sophon.org");
    TestedString();
    NoColonNoSep(u.scheme);
    NoColonNoSep(u.path);
    ParsePrintRoundTrip(u);
  }

  lemma TestedParsingNoScheme()
    ensures ParseURL("sophon.org").Err?
  {
    NoColonNoSep("sophon.org");
  }

  lemma TestedString()
    ensures String(URL("https", "sophon.org")) == "https://sophon.org"
    ensures String(URL("", "sophon.org")) == "sophon.org"
  {
  }

  /** A character encoding/json writes as itself. */
  predicate Plain(c: char)
  {
    ' ' <= c <= '~' && c != '"' && c != '\\' && c != '<' && c != '>' && c != '&'
  }

  /** A string of characters that need no escape is its own escape. */
  lemma {:induction false} EscapePlain(s: string)
    requires forall i :: 0 <= i < |s| ==> Plain(s[i])
    ensures Escape(s) == s
  {
    if s != [] {
      EscapePlain(s[1..]);
      assert [s[0]] + s[1..] == s;
    }
  }

  lemma TestedMarshalJSON()
    ensures MarshalJSON(URL("https", "sophon.org")) == Ok("\"https://sophon.org\"")
  {
    var text := String(URL("https", "sophon.org"));
    TestedString();
    assert "\"" + "https://sophon.org" + "\"" == "\"https://sophon.org\"";
    EscapePlain(text);
  }

  lemma TestedUnmarshalJSON()
    ensures UnmarshalJSON(URL("", ""), "\"https://sophon.org\"") == (URL("https", "sophon.org"), None)
  {
    TestedParsing();
    TestedMarshalJSON();
    QuoteRoundTrip("https://sophon.org");
  }

  /** White space around the JSON string is skipped, as json.Unmarshal does. */
  lemma UnmarshalJSONSkipsSpace()
    ensures UnmarshalJSON(URL("", ""), " \"https://sophon.org\"\n") == (URL("https", "sophon.org"), None)
  {
    var x := "\"https://sophon.org\"";
    assert " " + x + "\n" == " \"https://sophon.org\"\n";
    UnquoteSkipsSpace(" ", x, "\n");
    TestedUnmarshalJSON();
  }

  /** JSON null leaves the text empty, and the empty text has no scheme: the receiver is kept. */
  lemma UnmarshalJSONNull(u: URL)
    ensures UnmarshalJSON(u, "null") == (u, Some("protocol scheme missing"))
  {
    TrimSpaceAround([], "null", []);
    assert [] + "null" + [] == "null";
  }

  lemma TestedComparison()
    ensures Cmp(URL("https", "sophon.org"), URL("https", "sophon.org")) == 0
    ensures Cmp(URL("http", "sophon.org"), URL("https", "sophon.org")) == -1
    ensures Cmp(URL("https", "sophon.org/a"), URL("https", "sophon.org")) == 1
    ensures Cmp(URL("https", "abc.org"), URL("https", "sophon.org")) == -1
  {
    PrefixSortsFirst("http", "https");
    PrefixSortsFirst("sophon.org", "sophon.org/a");
  }
}
