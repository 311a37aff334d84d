/** The authorization value (`authorizationImpl`) of the `requests` and
    `http` packages, whose code is the same: a credential type and a value,
    set together by `Bearer` or `Basic` through a pointer receiver. The
    `Basic` value is the user-pass of section 2 of RFC 7617 as plain text,
    not base64-encoded; the `Bearer` value is the token of section 2.1 of
    RFC 6750. */
module Auth {
  import opened Wrappers

  const AuthorizationTypeBasic := "Basic"
  const AuthorizationTypeBearer := "Bearer"

  /** The position of the first `c` in `s`, if any. */
  function IndexOf(s: string, c: char): (r: Option<nat>)
    ensures r.None? <==> c !in s
    ensures r.Some? ==> r.value < |s| && s[r.value] == c && c !in s[..r.value]
  {
    if s == [] then None
    else if s[0] == c then Some(0)
    else match IndexOf(s[1..], c)
      case None => None
      case Some(i) => assert s[1..][..i] == s[1..i + 1]; Some(i + 1)
  }

  /** Splits `s` at its first `c`: the text before it and the text after it. */
  function SplitAt(s: string, c: char): Option<(string, string)> {
    match IndexOf(s, c)
    case None => None
    case Some(i) => Some((s[..i], s[i + 1..]))
  }

  /** Splitting at the first separator undoes joining, when the first part
      does not contain the separator. */
  lemma SplitAtJoin(a: string, b: string, c: char)
    requires c !in a
    ensures SplitAt(a + [c] + b, c) == Some((a, b))
  {
    var s := a + [c] + b;
    assert s[|a|] == c;
    var i := IndexOf(s, c).value;
    assert s[..|a|] == a;
    assert i == |a|;
    assert s[i + 1..] == b;
  }

  class Authorization {
    var authorizationType: string
    var value: string

    /** `NewAuthorization()`: no type, no value. */
    constructor ()
      ensures authorizationType == "" && value == ""
      ensures IsEmpty() && !IsBasic() && !IsBearer()
    {
      authorizationType, value := "", "";
    }

    /** `Bearer(token)`: overwrites both fields and returns the same object. */
    method Bearer(token: string) returns (a: Authorization)
      modifies this
      ensures a == this && authorizationType == AuthorizationTypeBearer && value == token
      ensures IsBearer() && IsSet()
    {
      authorizationType := AuthorizationTypeBearer;
      value := token;
      a := this;
    }

    /** `Basic(username, password)`: the value is `username:password`. */
    method Basic(username: string, password: string) returns (a: Authorization)
      modifies this
      ensures a == this && authorizationType == AuthorizationTypeBasic
      ensures value == username + ":" + password
      ensures ':' !in username ==> SplitAt(value, ':') == Some((username, password))
      ensures IsBasic() && IsSet()
    {
      authorizationType := AuthorizationTypeBasic;
      value := username + ":" + password;
      if ':' !in username {
        SplitAtJoin(username, password, ':');
      }
      a := this;
    }

    /** `String()`: the header field value, type and value joined by a space. */
    function String(): (s: string)
      reads this
      ensures ' ' !in authorizationType ==> SplitAt(s, ' ') == Some((authorizationType, value))
      ensures |s| == |authorizationType| + 1 + |value|
    {
      SplitSchemeRoundTrip(authorizationType, value);
      authorizationType + " " + value
    }

    /** `Type()` */
    function Type(): (t: string)
      reads this
      ensures ' ' !in t ==> SplitAt(String(), ' ') == Some((t, value))
    {
      authorizationType
    }

    /** `Value()` */
    function Value(): (v: string)
      reads this
      ensures String() == authorizationType + " " + v
    {
      value
    }

    /** `IsBasic()`: a test of the type alone. */
    predicate IsBasic()
      reads this
      ensures IsBasic() <==> Type() == AuthorizationTypeBasic
      ensures IsBasic() ==> AuthorizationTypeBasic + " " <= String()
    {
      authorizationType == AuthorizationTypeBasic
    }

    /** `IsBearer()`: a test of the type alone. */
    predicate IsBearer()
      reads this
      ensures IsBearer() <==> Type() == AuthorizationTypeBearer
      ensures IsBearer() ==> AuthorizationTypeBearer + " " <= String()
    {
      authorizationType == AuthorizationTypeBearer
    }

    /** `IsEmpty()`: neither a type nor a value. */
    predicate IsEmpty()
      reads this
      ensures IsEmpty() <==> String() == " "
    {
      authorizationType == "" && value == ""
    }

    /** `IsSet()` */
    predicate IsSet()
      reads this
      ensures IsSet() <==> authorizationType != "" || value != ""
    {
      !IsEmpty()
    }
  }

  /** A value is never both Basic and Bearer, and either kind is set. */
  lemma KindsExclusive(a: Authorization)
    ensures !(a.IsBasic() && a.IsBearer())
    ensures a.IsBasic() || a.IsBearer() ==> a.IsSet()
  {
  }

  lemma SplitSchemeRoundTrip(scheme: string, credentials: string)
    ensures ' ' !in scheme ==> SplitAt(scheme + " " + credentials, ' ') == Some((scheme, credentials))
  {
    if ' ' !in scheme {
      SplitAtJoin(scheme, credentials, ' ');
    }
  }

  /** An empty token and an empty user-pass still make a set value:
      "Bearer " and "Basic :". */
  method EmptyCredentials() returns (bearer: string, basic: string, bearerSet: bool, basicSet: bool)
    ensures bearer == "Bearer " && bearerSet
    ensures basic == "Basic :" && basicSet
  {
    var a := new Authorization();
    var _ := a.Bearer("");
    bearer, bearerSet := a.String(), a.IsSet();
    var _ := a.Basic("", "");
    basic, basicSet := a.String(), a.IsSet();
  }

  /** A Basic value "test" reads "Basic test". */
  method BasicTest() returns (header: string)
    ensures header == "Basic test"
  {
    var a := new Authorization();
    a.authorizationType, a.value := AuthorizationTypeBasic, "test";
    header := a.String();
  }
}
