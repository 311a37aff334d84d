/** The header store of the `requests` package (`headerImpl`): one value
    per header name, last write wins, fluent setters that change the store in
    place and return it. */
module Headers {
  import GoMaps
  import Decimal
  import opened HttpHeaders

  // The names the dedicated setters write.
  const HeaderTypeAccept := "Accept"
  const HeaderTypeAcceptCharset := "Accept-Charset"
  const HeaderTypeAcceptEncoding := "Accept-Encoding"
  const HeaderTypeAcceptLanguage := "Accept-Language"
  const HeaderTypeAcceptRanges := "Accept-Ranges"
  const HeaderTypeAge := "Age"
  const HeaderTypeAllow := "Allow"
  const HeaderTypeContentDisposition := "Content-Disposition"
  const HeaderTypeContentEncoding := "Content-Encoding"
  const HeaderTypeContentLanguage := "Content-Language"
  const HeaderTypeContentLength := "Content-Length"
  const HeaderTypeContentLocation := "Content-Location"
  const HeaderTypeContentMD5 := "Content-MD5"
  const HeaderTypeContentRange := "Content-Range"
  const HeaderTypeContentType := "Content-Type"
  const HeaderTypeCookie := "Cookie"
  const HeaderTypeDate := "Date"
  const HeaderTypeETag := "ETag"
  const HeaderTypeExpires := "Expires"

  /** The values of `v` with no element twice. */
  predicate NoDuplicates(v: seq<string>) {
    forall i, j :: 0 <= i < j < |v| ==> v[i] != v[j]
  }

  /** `String()` output for the keys in the order `order`: every entry as
      `key: value`, with nothing between entries. */
  function Render(m: map<string, string>, order: seq<string>): string
    requires forall k :: k in order ==> k in m
  {
    if order == [] then "" else Render(m, order[..|order| - 1]) + order[|order| - 1] + ": " + m[order[|order| - 1]]
  }

  class HeaderStore {
    /** The Go map the store wraps; the store never rebinds it. */
    const values: GoMaps.StringMap

    /** `NewHeaders()`: an empty store over a fresh map. */
    constructor ()
      ensures fresh(values) && values.entries == map[]
    {
      values := new GoMaps.StringMap();
    }

    /** `Set(key, value)` */
    method Set(key: string, value: string) returns (h: HeaderStore)
      modifies values
      ensures h == this && values.entries == old(values.entries)[key := value]
    {
      values.Put(key, value);
      h := this;
    }

    method SetContentType(contentType: string) returns (h: HeaderStore)
      modifies values
      ensures h == this && values.entries == old(values.entries)[HeaderTypeContentType := contentType]
    {
      values.Put(HeaderTypeContentType, contentType);
      h := this;
    }

    /** The count is stored as its decimal text, `strconv.Itoa`. */
    method SetContentLength(contentLength: int) returns (h: HeaderStore)
      modifies values
      ensures h == this && values.entries == old(values.entries)[HeaderTypeContentLength := Decimal.Itoa(contentLength)]
    {
      values.Put(HeaderTypeContentLength, Decimal.Itoa(contentLength));
      h := this;
    }

    method SetContentDisposition(contentDisposition: string) returns (h: HeaderStore)
      modifies values
      ensures h == this && values.entries == old(values.entries)[HeaderTypeContentDisposition := contentDisposition]
    {
      values.Put(HeaderTypeContentDisposition, contentDisposition);
      h := this;
    }

    method SetContentEncoding(contentEncoding: string) returns (h: HeaderStore)
      modifies values
      ensures h == this && values.entries == old(values.entries)[HeaderTypeContentEncoding := contentEncoding]
    {
      values.Put(HeaderTypeContentEncoding, contentEncoding);
      h := this;
    }

    method SetContentLanguage(contentLanguage: string) returns (h: HeaderStore)
      modifies values
      ensures h == this && values.entries == old(values.entries)[HeaderTypeContentLanguage := contentLanguage]
    {
      values.Put(HeaderTypeContentLanguage, contentLanguage);
      h := this;
    }

    method SetContentLocation(contentLocation: string) returns (h: HeaderStore)
      modifies values
      ensures h == this && values.entries == old(values.entries)[HeaderTypeContentLocation := contentLocation]
    {
      values.Put(HeaderTypeContentLocation, contentLocation);
      h := this;
    }

    method SetContentMD5(contentMD5: string) returns (h: HeaderStore)
      modifies values
      ensures h == this && values.entries == old(values.entries)[HeaderTypeContentMD5 := contentMD5]
    {
      values.Put(HeaderTypeContentMD5, contentMD5);
      h := this;
    }

    method SetContentRange(contentRange: string) returns (h: HeaderStore)
      modifies values
      ensures h == this && values.entries == old(values.entries)[HeaderTypeContentRange := contentRange]
    {
      values.Put(HeaderTypeContentRange, contentRange);
      h := this;
    }

    method SetCookie(cookie: string) returns (h: HeaderStore)
      modifies values
      ensures h == this && values.entries == old(values.entries)[HeaderTypeCookie := cookie]
    {
      values.Put(HeaderTypeCookie, cookie);
      h := this;
    }

    method SetDate(date: string) returns (h: HeaderStore)
      modifies values
      ensures h == this && values.entries == old(values.entries)[HeaderTypeDate := date]
    {
      values.Put(HeaderTypeDate, date);
      h := this;
    }

    method SetETag(eTag: string) returns (h: HeaderStore)
      modifies values
      ensures h == this && values.entries == old(values.entries)[HeaderTypeETag := eTag]
    {
      values.Put(HeaderTypeETag, eTag);
      h := this;
    }

    method SetExpires(expires: string) returns (h: HeaderStore)
      modifies values
      ensures h == this && values.entries == old(values.entries)[HeaderTypeExpires := expires]
    {
      values.Put(HeaderTypeExpires, expires);
      h := this;
    }

    method SetAccept(accept: string) returns (h: HeaderStore)
      modifies values
      ensures h == this && values.entries == old(values.entries)[HeaderTypeAccept := accept]
    {
      values.Put(HeaderTypeAccept, accept);
      h := this;
    }

    method SetAcceptCharset(acceptCharset: string) returns (h: HeaderStore)
      modifies values
      ensures h == this && values.entries == old(values.entries)[HeaderTypeAcceptCharset := acceptCharset]
    {
      values.Put(HeaderTypeAcceptCharset, acceptCharset);
      h := this;
    }

    method SetAcceptEncoding(acceptEncoding: string) returns (h: HeaderStore)
      modifies values
      ensures h == this && values.entries == old(values.entries)[HeaderTypeAcceptEncoding := acceptEncoding]
    {
      values.Put(HeaderTypeAcceptEncoding, acceptEncoding);
      h := this;
    }

    method SetAcceptLanguage(acceptLanguage: string) returns (h: HeaderStore)
      modifies values
      ensures h == this && values.entries == old(values.entries)[HeaderTypeAcceptLanguage := acceptLanguage]
    {
      values.Put(HeaderTypeAcceptLanguage, acceptLanguage);
      h := this;
    }

    method SetAcceptRanges(acceptRanges: string) returns (h: HeaderStore)
      modifies values
      ensures h == this && values.entries == old(values.entries)[HeaderTypeAcceptRanges := acceptRanges]
    {
      values.Put(HeaderTypeAcceptRanges, acceptRanges);
      h := this;
    }

    method SetAge(age: string) returns (h: HeaderStore)
      modifies values
      ensures h == this && values.entries == old(values.entries)[HeaderTypeAge := age]
    {
      values.Put(HeaderTypeAge, age);
      h := this;
    }

    method SetAllow(allow: string) returns (h: HeaderStore)
      modifies values
      ensures h == this && values.entries == old(values.entries)[HeaderTypeAllow := allow]
    {
      values.Put(HeaderTypeAllow, allow);
      h := this;
    }

    /** `SetCustom` is `Set` under another name. */
    method SetCustom(key: string, value: string) returns (h: HeaderStore)
      modifies values
      ensures h == this && values.entries == old(values.entries)[key := value]
    {
      h := Set(key, value);
    }

    /** `Get(key)`: the stored value, or "" for a missing key. */
    function Get(key: string): (v: string)
      reads values
      ensures key in values.entries ==> v == values.entries[key]
      ensures key !in values.entries ==> v == ""
    {
      values.Lookup(key)
    }

    /** `Del(key)` */
    method Del(key: string) returns (h: HeaderStore)
      modifies values
      ensures h == this && values.entries == old(values.entries) - {key}
    {
      values.Delete(key);
      h := this;
    }

    /** `Clone()`: a new store over a new map holding the same entries. */
    method Clone() returns (h: HeaderStore)
      ensures fresh(h) && fresh(h.values) && h.values.entries == values.entries
    {
      var clone := new GoMaps.StringMap();
      var todo := values.entries.Keys;
      while todo != {}
        invariant todo <= values.entries.Keys
        invariant clone.entries.Keys == values.entries.Keys - todo
        invariant forall k :: k in clone.entries ==> clone.entries[k] == values.entries[k]
        decreases todo
      {
        var k :| k in todo;
        clone.Put(k, values.entries[k]);
        todo := todo - {k};
      }
      h := new HeaderStore.Over(clone);
    }

    /** A store over an existing map (the struct literal `&headerImpl{values: m}`). */
    constructor Over(m: GoMaps.StringMap)
      ensures values == m
    {
      values := m;
    }

    /** `IsEmpty()` */
    predicate IsEmpty()
      reads values
      ensures IsEmpty() <==> Len() == 0
    {
      |values.entries| == 0
    }

    /** `IsSet()`: the store has at least one header. */
    predicate IsSet()
      reads values
      ensures IsSet() <==> exists k :: k in values.entries
    {
      !IsEmpty()
    }

    /** `String()`: every entry as `key: value`, in map order. */
    method String() returns (s: string, ghost order: seq<string>)
      ensures NoDuplicates(order) && (forall k :: k in order <==> k in values.entries)
      ensures s == Render(values.entries, order)
    {
      s, order := "", [];
      var todo := values.entries.Keys;
      while todo != {}
        invariant todo <= values.entries.Keys
        invariant NoDuplicates(order)
        invariant forall k :: k in order <==> k in values.entries && k !in todo
        invariant s == Render(values.entries, order)
        decreases todo
      {
        var k :| k in todo;
        s := s + k + ": " + values.entries[k];
        order := order + [k];
        todo := todo - {k};
      }
    }

    /** `Values()`: the live map itself, so writes through it are writes to the store. */
    function Values(): (m: GoMaps.StringMap)
      ensures m == values
    {
      values
    }

    /** `Keys()`: every header name once, in map order. */
    method Keys() returns (keys: seq<string>)
      ensures NoDuplicates(keys)
      ensures forall k :: k in keys <==> k in values.entries
      ensures |keys| == Len()
    {
      keys := [];
      var todo := values.entries.Keys;
      while todo != {}
        invariant todo <= values.entries.Keys
        invariant NoDuplicates(keys)
        invariant forall k :: k in keys <==> k in values.entries && k !in todo
        invariant |keys| + |todo| == |values.entries|
        decreases todo
      {
        var k :| k in todo;
        keys := keys + [k];
        todo := todo - {k};
      }
    }

    /** `Len()`: the number of distinct header names. */
    function Len(): (n: nat)
      reads values
      ensures n == |values.entries.Keys|
    {
      |values.entries|
    }

    /** `GetAll()`: every header as a one-element list. */
    method GetAll() returns (all: Header)
      ensures all.Keys == values.entries.Keys
      ensures forall k :: k in all ==> all[k] == [values.entries[k]]
      ensures all == Singletons(values.entries)
    {
      all := map[];
      var todo := values.entries.Keys;
      while todo != {}
        invariant todo <= values.entries.Keys
        invariant all.Keys == values.entries.Keys - todo
        invariant forall k :: k in all ==> all[k] == [values.entries[k]]
        decreases todo
      {
        var k :| k in todo;
        all := all[k := [values.entries[k]]];
        todo := todo - {k};
      }
    }

    /** `GetAllHttpHeaders()`: every header `Set` into a fresh `http.Header`,
        which canonicalises the names. */
    method GetAllHttpHeaders(canon: string -> string) returns (h: Header)
      ensures h.Keys == set k | k in values.entries :: canon(k)
      ensures forall n :: n in h ==> exists k :: k in values.entries && canon(k) == n && h[n] == [values.entries[k]]
    {
      var all := GetAll();
      h := SetEach(map[], all, canon);
    }
  }

  /** Every entry of `m` as a one-element list, the shape `GetAll` returns. */
  function Singletons(m: map<string, string>): (h: Header)
    ensures h.Keys == m.Keys
  {
    map k | k in m :: [m[k]]
  }

  /** `getHeader(headers...)`: the first of the variadic headers, or a new empty one. */
  function GetHeader(headers: seq<Header>): (h: Header)
    ensures |headers| == 0 ==> h == map[]
    ensures |headers| > 0 ==> h == headers[0]
  {
    if |headers| == 0 then map[] else headers[0]
  }
}
