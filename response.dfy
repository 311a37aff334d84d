/** The response value (`Response`) of the root and the `http` packages and
    its content negotiation: an ordered, case-sensitive substring test picks
    one of five content-type constants, and `Unmarshal` dispatches on it to
    a decoder. The JSON, XML and YAML decoders and the target's
    `UnmarshalText` belong to other libraries and are a parameter `decode`. */
module Responses {
  import opened Wrappers
  import HttpHeaders

  type byte = bv8

  const JsonContentType := "application/json"
  const XmlContentType := "application/xml"
  const YamlContentType := "application/yaml"
  const TextContentType := "text/plain"
  const NoneContentType := ""

  /** `sub` occurs in `s` at some position. */
  ghost predicate IsSubstring(sub: string, s: string) {
    exists i :: 0 <= i <= |s| && sub <= s[i..]
  }

  /** `strings.Contains(s, sub)` */
  function Contains(s: string, sub: string): (b: bool)
    ensures b <==> IsSubstring(sub, s)
    decreases |s|
  {
    if |s| < |sub| then
      assert !IsSubstring(sub, s) by {
        forall i | 0 <= i <= |s| ensures !(sub <= s[i..]) { }
      }
      false
    else if s[..|sub|] == sub then
      assert sub <= s[0..];
      true
    else
      var b := Contains(s[1..], sub);
      var t := s[1..];
      assert b ==> IsSubstring(sub, s) by {
        if b {
          var i :| 0 <= i <= |t| && sub <= t[i..];
          assert s[i + 1..] == t[i..];
        }
      }
      assert IsSubstring(sub, s) ==> b by {
        if IsSubstring(sub, s) {
          var i :| 0 <= i <= |s| && sub <= s[i..];
          if i == 0 {
            assert s[..|sub|] == s[0..][..|sub|];
          } else {
            assert t[i - 1..] == s[i..];
          }
        }
      }
      b
  }

  /** `getContentType()`: the first of the JSON, XML, YAML and text
      constants that occurs in the declared type, else the empty constant.
      The test is case-sensitive and does not parse parameters. */
  function GetContentType(contentType: string): (c: string)
    ensures c in {JsonContentType, XmlContentType, YamlContentType, TextContentType, NoneContentType}
    ensures c == JsonContentType <==> IsSubstring(JsonContentType, contentType)
    ensures c == XmlContentType <==>
      !IsSubstring(JsonContentType, contentType) && IsSubstring(XmlContentType, contentType)
    ensures c == YamlContentType <==>
      !IsSubstring(JsonContentType, contentType) && !IsSubstring(XmlContentType, contentType)
      && IsSubstring(YamlContentType, contentType)
    ensures c == TextContentType <==>
      !IsSubstring(JsonContentType, contentType) && !IsSubstring(XmlContentType, contentType)
      && !IsSubstring(YamlContentType, contentType) && IsSubstring(TextContentType, contentType)
  {
    if Contains(contentType, JsonContentType) then JsonContentType
    else if Contains(contentType, XmlContentType) then XmlContentType
    else if Contains(contentType, YamlContentType) then YamlContentType
    else if Contains(contentType, TextContentType) then TextContentType
    else NoneContentType
  }

  /** The decoders `Unmarshal` can call. */
  datatype Format = Json | Xml | Yaml | Text

  /** The two content-type errors of `errors.go`. */
  datatype ContentTypeError = NoContentType | UnsupportedContentType

  /** What `Unmarshal` did: called the decoder for `format`, which returned
      `err` (None for a nil error), or returned a content-type error itself. */
  datatype Dispatch = Decoded(format: Format, err: Option<string>) | Rejected(error: ContentTypeError)

  /** The `interface{}` argument of `Unmarshal`; only whether it implements
      `encoding.TextUnmarshaler` is observable here. */
  datatype Target = Target(isTextUnmarshaler: bool)

  /** A decoder run: format, target and body to the error it returns. */
  type Decoder = (Format, Target, seq<byte>) -> Option<string>

  datatype Response = Response(
    statusCode: int,
    status: string,
    header: HttpHeaders.Header,
    body: seq<byte>,
    contentType: string)
  {
    /** `StatusCode()`: the code the response was received with. */
    function StatusCode(): (c: int)
      ensures c == statusCode
    {
      statusCode
    }

    /** `Header()`: the received header, value lists and all. */
    function Header(): (h: HttpHeaders.Header)
      ensures h == header
    {
      header
    }

    /** `Bytes()` (`Body()` in the `http` package): the body as read. */
    function Bytes(): (b: seq<byte>)
      ensures b == body
    {
      body
    }

    /** `Status()`: the received status line. */
    function Status(): (s: string)
      ensures s == status
    {
      status
    }

    /** `String()`: the body as a Go string, which is the same bytes. */
    function String(): (s: seq<byte>)
      ensures s == Bytes() && |s| == |body|
    {
      body
    }

    /** `ContentType()`: the classified declared type, one of the five constants. */
    function ContentType(): (c: string)
      ensures c in {JsonContentType, XmlContentType, YamlContentType, TextContentType, NoneContentType}
      ensures c == NoneContentType <==>
        !IsSubstring(JsonContentType, contentType) && !IsSubstring(XmlContentType, contentType)
        && !IsSubstring(YamlContentType, contentType) && !IsSubstring(TextContentType, contentType)
    {
      GetContentType(contentType)
    }

    /** `unmarshalText` of the root package: the target's `UnmarshalText`
        if it has one, else `UnsupportedContentType`. */
    function UnmarshalText(target: Target, decode: Decoder): (d: Dispatch)
      ensures d.Rejected? <==> !target.isTextUnmarshaler
      ensures d.Rejected? ==> d.error == UnsupportedContentType
      ensures d.Decoded? ==> d.format == Text && d.err == decode(Text, target, body)
    {
      if target.isTextUnmarshaler then Decoded(Text, decode(Text, target, body))
      else Rejected(UnsupportedContentType)
    }

    /** `Unmarshal(v)` of the root package: a switch on the classified type.
        Its `default` branch cannot be reached, since the classification
        only yields the five constants the other cases name. */
    function Unmarshal(target: Target, decode: Decoder): (d: Dispatch)
      ensures d.Decoded? ==> d.err == decode(d.format, target, body)
      ensures d.Rejected? && d.error == UnsupportedContentType ==>
        ContentType() == TextContentType && !target.isTextUnmarshaler
      ensures ContentType() == JsonContentType ==> d == Decoded(Json, decode(Json, target, body))
      ensures ContentType() == XmlContentType ==> d == Decoded(Xml, decode(Xml, target, body))
      ensures ContentType() == YamlContentType ==> d == Decoded(Yaml, decode(Yaml, target, body))
      ensures ContentType() == TextContentType ==> d == UnmarshalText(target, decode)
      ensures ContentType() == NoneContentType ==> d == Rejected(NoContentType)
    {
      var c := GetContentType(contentType);
      if c == JsonContentType then Decoded(Json, decode(Json, target, body))
      else if c == XmlContentType then Decoded(Xml, decode(Xml, target, body))
      else if c == YamlContentType then Decoded(Yaml, decode(Yaml, target, body))
      else if c == TextContentType then UnmarshalText(target, decode)
      else if c == NoneContentType then Rejected(NoContentType)
      else Rejected(UnsupportedContentType)
    }

    /** `Unmarshal(v)` of the `http` package, whose `unmarshalText` asserts
        the target type unchecked: a text response with any other target
        panics, so that case is excluded here. */
    function UnmarshalUnchecked(target: Target, decode: Decoder): (d: Dispatch)
      requires GetContentType(contentType) == TextContentType ==> target.isTextUnmarshaler
      ensures d == Unmarshal(target, decode)
      ensures d.Rejected? <==> ContentType() == NoneContentType
    {
      var c := GetContentType(contentType);
      if c == JsonContentType then Decoded(Json, decode(Json, target, body))
      else if c == XmlContentType then Decoded(Xml, decode(Xml, target, body))
      else if c == YamlContentType then Decoded(Yaml, decode(Yaml, target, body))
      else if c == TextContentType then Decoded(Text, decode(Text, target, body))
      else if c == NoneContentType then Rejected(NoContentType)
      else Rejected(UnsupportedContentType)
    }
  }

  /** Which decoder `Unmarshal` calls, and when it calls none. */
  lemma UnmarshalDispatch(r: Response, target: Target, decode: Decoder)
    ensures var d := r.Unmarshal(target, decode);
      && (d.Decoded? && d.format == Json <==> IsSubstring(JsonContentType, r.contentType))
      && (d.Decoded? && d.format == Xml <==> r.ContentType() == XmlContentType)
      && (d.Decoded? && d.format == Yaml <==> r.ContentType() == YamlContentType)
      && (d.Decoded? && d.format == Text <==> r.ContentType() == TextContentType && target.isTextUnmarshaler)
      && (d == Rejected(NoContentType) <==> r.ContentType() == NoneContentType)
      && (d == Rejected(UnsupportedContentType) <==>
            r.ContentType() == TextContentType && !target.isTextUnmarshaler)
  {
  }

  /** An unrecognised declared type, however spelled, gets `NoContentType`:
      `UnsupportedContentType` comes only from the text branch. */
  lemma UnrecognisedTypeIsNoContentType(r: Response, target: Target, decode: Decoder)
    requires !IsSubstring(JsonContentType, r.contentType) && !IsSubstring(XmlContentType, r.contentType)
    requires !IsSubstring(YamlContentType, r.contentType) && !IsSubstring(TextContentType, r.contentType)
    ensures r.Unmarshal(target, decode) == Rejected(NoContentType)
  {
  }

  /** A string that lacks one of the characters of `sub` does not contain `sub`. */
  lemma MissingCharacter(sub: string, s: string, c: char)
    requires c in sub && c !in s
    ensures !IsSubstring(sub, s)
  {
    var k :| 0 <= k < |sub| && sub[k] == c;
    forall i | 0 <= i <= |s|
      ensures !(sub <= s[i..])
    {
      if i + k < |s| {
        assert s[i + k] in s;
      }
    }
  }

  /** Parameters are tolerated, and a JSON type listed after an XML one
      still classifies as JSON. */
  lemma JsonExamples()
    ensures GetContentType("application/json; charset=utf-8") == JsonContentType
    ensures GetContentType("application/xml, application/json") == JsonContentType
  {
    assert JsonContentType <= "application/json; charset=utf-8"[0..];
    assert JsonContentType <= "application/xml, application/json"[17..];
  }

  /** The test is case-sensitive. */
  lemma UpperCaseJsonIsNone()
    ensures GetContentType("Application/JSON") == NoneContentType
  {
    var ct := "Application/JSON";
    MissingCharacter(JsonContentType, ct, 'j');
    MissingCharacter(XmlContentType, ct, 'x');
    MissingCharacter(YamlContentType, ct, 'y');
    MissingCharacter(TextContentType, ct, 'x');
  }

  /** A type the classification does not know is "". */
  lemma PdfIsNone()
    ensures GetContentType("application/pdf") == NoneContentType
  {
    var ct := "application/pdf";
    MissingCharacter(JsonContentType, ct, 'j');
    MissingCharacter(XmlContentType, ct, 'x');
    MissingCharacter(YamlContentType, ct, 'y');
    MissingCharacter(TextContentType, ct, 'x');
  }
}
