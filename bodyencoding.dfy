/** Request-body encoding of the `http` package (`getBody`): a nil body is
    sent as no body; otherwise the declared content type, lower-cased and
    compared exactly, picks XML for "application/xml" and JSON for
    everything else. The two marshallers are parameters. */
module BodyEncoding {
  import opened Wrappers

  type byte = bv8

  const JsonMediaType := "application/json"
  const XmlMediaType := "application/xml"

  /** The lower case of `c` as far as a comparison with an ASCII constant can
      tell: ASCII capitals, and the two non-ASCII letters whose lower case is
      ASCII (U+0130, capital I with dot, and U+212A, the Kelvin sign). Any
      other character stays as it is, which is not ASCII when `c` is not. */
  function LowerChar(c: char): (l: char)
    ensures 'A' <= c <= 'Z' ==> l as int == c as int + 32
    ensures !('A' <= c <= 'Z') && c != '\U{0130}' && c != '\U{212A}' ==> l == c
  {
    if 'A' <= c <= 'Z' then (c as int + 32) as char
    else if c == '\U{0130}' then 'i'
    else if c == '\U{212A}' then 'k'
    else c
  }

  /** `strings.ToLower`, character by character. */
  function ToLower(s: string): (r: string)
    ensures |r| == |s|
    ensures forall i :: 0 <= i < |s| ==> r[i] == LowerChar(s[i])
  {
    if s == [] then [] else [LowerChar(s[0])] + ToLower(s[1..])
  }

  /** `a` equals the lower-case constant `b` ignoring case. */
  predicate EqualFoldTo(a: string, b: string) {
    |a| == |b| && forall i :: 0 <= i < |a| ==> LowerChar(a[i]) == b[i]
  }

  /** The two marshallers `getBody` can call. */
  datatype Encoder = JsonEncoder | XmlEncoder

  /** The `switch` of `getBody`: an exact match after lower-casing, with
      JSON as the default. */
  function SelectEncoder(contentType: string): (e: Encoder)
    ensures e == XmlEncoder <==> EqualFoldTo(contentType, XmlMediaType)
    ensures EqualFoldTo(contentType, JsonMediaType) ==> e == JsonEncoder
  {
    var ct := ToLower(contentType);
    assert ct == XmlMediaType <==> EqualFoldTo(contentType, XmlMediaType);
    if ct == JsonMediaType then JsonEncoder
    else if ct == XmlMediaType then XmlEncoder
    else JsonEncoder
  }

  /** A marshaller: the value to its bytes, or an error. */
  type Marshaller<-T> = T -> Result<seq<byte>, string>

  /** `getBody(contentType, body)`: `Success(None)` is the `nil, nil` of a
      nil body; an encoder's error is passed through unchanged. */
  function GetBody<T>(contentType: string, body: Option<T>,
                      marshalJson: Marshaller<T>, marshalXml: Marshaller<T>): (r: Result<Option<seq<byte>>, string>)
    ensures body.None? ==> r == Success(None)
    ensures body.Some? ==>
      var m := if EqualFoldTo(contentType, XmlMediaType) then marshalXml(body.value) else marshalJson(body.value);
      && (r.Failure? <==> m.Failure?)
      && (r.Failure? ==> r.error == m.error)
      && (r.Success? ==> r.value == Some(m.value))
  {
    match body
    case None => Success(None)
    case Some(v) =>
      var m := if SelectEncoder(contentType) == XmlEncoder then marshalXml(v) else marshalJson(v);
      if m.Success? then Success(Some(m.value)) else Failure(m.error)
  }

  /** Strings that lower-case alike select the same encoder. */
  lemma SelectEncoderIgnoresCase(a: string, b: string)
    requires |a| == |b| && forall i :: 0 <= i < |a| ==> LowerChar(a[i]) == LowerChar(b[i])
    ensures SelectEncoder(a) == SelectEncoder(b)
  {
    assert EqualFoldTo(a, XmlMediaType) <==> EqualFoldTo(b, XmlMediaType);
  }

  /** Matching a non-empty string is matching its first character and then the rest. */
  lemma EqualFoldStep(a: string, b: string)
    requires |a| == |b| > 0 && LowerChar(a[0]) == b[0] && EqualFoldTo(a[1..], b[1..])
    ensures EqualFoldTo(a, b)
  {
    forall i | 1 <= i < |a|
      ensures LowerChar(a[i]) == b[i]
    {
      assert a[1..][i - 1] == a[i];
    }
  }

  /** "APPLICATION/XML" selects XML, one character at a time from the end. */
  lemma UpperCaseXml()
    ensures SelectEncoder("APPLICATION/XML") == XmlEncoder
  {
    EqualFoldStep("L", "l");
    EqualFoldStep("ML", "ml");
    EqualFoldStep("XML", "xml");
    EqualFoldStep("/XML", "/xml");
    EqualFoldStep("N/XML", "n/xml");
    EqualFoldStep("ON/XML", "on/xml");
    EqualFoldStep("ION/XML", "ion/xml");
    EqualFoldStep("TION/XML", "tion/xml");
    EqualFoldStep("ATION/XML", "ation/xml");
    EqualFoldStep("CATION/XML", "cation/xml");
    EqualFoldStep("ICATION/XML", "ication/xml");
    EqualFoldStep("LICATION/XML", "lication/xml");
    EqualFoldStep("PLICATION/XML", "plication/xml");
    EqualFoldStep("PPLICATION/XML", "pplication/xml");
    EqualFoldStep("APPLICATION/XML", XmlMediaType);
  }

  /** The match is exact: parameters, another subtype or an empty type
      all fall back to JSON. */
  lemma JsonFallbackExamples()
    ensures SelectEncoder("application/xml; charset=utf-8") == JsonEncoder
    ensures SelectEncoder("text/xml") == JsonEncoder
    ensures SelectEncoder("") == JsonEncoder
  {
  }
}
