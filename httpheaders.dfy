/** Go's `http.Header` as the client fills it: `Header.Set(name, v)`
    stores the one-element list `[v]` under the canonical form of `name`.
    The canonicalisation itself (`textproto.CanonicalMIMEHeaderKey`) belongs
    to Go's library and is a parameter `canon` here. */
module HttpHeaders {

  /** `http.Header`; a nil header reads as the empty map. */
  type Header = map<string, seq<string>>

  /** The names that `Set(k, src[k][0])` writes for the keys `keys` of `src`
      whose value list is non-empty. */
  function SetNames(src: Header, keys: set<string>, canon: string -> string): set<string> {
    set k | k in keys && k in src && |src[k]| > 0 :: canon(k)
  }

  function Names(src: Header, canon: string -> string): set<string> {
    SetNames(src, src.Keys, canon)
  }

  /** `res` is `h` after `Set(k, src[k][0])` for every key `k` in `keys`
      with a non-empty list, in some order: every written name holds the
      first value of one of the keys that canonicalise to it, and every
      other name of `h` is untouched. */
  ghost predicate SetEachFrom(res: Header, h: Header, src: Header, keys: set<string>, canon: string -> string) {
    && res.Keys == h.Keys + SetNames(src, keys, canon)
    && (forall n :: n in SetNames(src, keys, canon) ==>
          exists k :: k in keys && k in src && |src[k]| > 0 && canon(k) == n && res[n] == [src[k][0]])
    && (forall n :: n in h && n !in SetNames(src, keys, canon) ==> res[n] == h[n])
  }

  /** `for k, v := range src { if len(v) > 0 { h.Set(k, v[0]) } }`, with
      Go's unspecified map iteration order left open. */
  method SetEach(h: Header, src: Header, canon: string -> string) returns (res: Header)
    ensures SetEachFrom(res, h, src, src.Keys, canon)
  {
    res := h;
    var todo := src.Keys;
    while todo != {}
      invariant todo <= src.Keys
      invariant SetEachFrom(res, h, src, src.Keys - todo, canon)
      decreases todo
    {
      var k :| k in todo;
      ghost var done := src.Keys - todo;
      if |src[k]| > 0 {
        assert SetNames(src, done + {k}, canon) == SetNames(src, done, canon) + {canon(k)};
        res := res[canon(k) := [src[k][0]]];
      } else {
        assert SetNames(src, done + {k}, canon) == SetNames(src, done, canon);
      }
      todo := todo - {k};
      assert src.Keys - todo == done + {k};
    }
    assert src.Keys - todo == src.Keys;
  }

  /** `res` is the header `getHeaders` sends: the builder's headers `base`
      first, then the per-call headers `call` over them. */
  ghost predicate IsMergeOf(res: Header, base: Header, call: Header, canon: string -> string) {
    && res.Keys == Names(base, canon) + Names(call, canon)
    && (forall n :: n in Names(call, canon) ==>
          exists k :: k in call && |call[k]| > 0 && canon(k) == n && res[n] == [call[k][0]])
    && (forall n :: n in Names(base, canon) && n !in Names(call, canon) ==>
          exists k :: k in base && |base[k]| > 0 && canon(k) == n && res[n] == [base[k][0]])
  }

  /** Keys with a non-empty value list. */
  function NonEmpty(h: Header): set<string> {
    set k | k in h && |h[k]| > 0
  }

  /** Every key of `h` is already in canonical form. */
  predicate Canonical(h: Header, canon: string -> string) {
    forall k :: k in h ==> canon(k) == k
  }

  /** Reference merge for canonical keys: per-call first values override
      the builder's first values; keys with empty lists contribute nothing. */
  function Merged(base: Header, call: Header): Header {
    map n | n in NonEmpty(base) + NonEmpty(call) ::
      if n in NonEmpty(call) then [call[n][0]] else [base[n][0]]
  }

  /** `getHeaders` (both the root and the `http` package versions): a fresh
      header filled by two `SetEach` loops; the inputs are values and stay
      as they are. With canonical keys the result is exactly `Merged`. */
  method GetHeaders(base: Header, call: Header, canon: string -> string) returns (res: Header)
    ensures IsMergeOf(res, base, call, canon)
    ensures Canonical(base, canon) && Canonical(call, canon) ==> res == Merged(base, call)
  {
    var common := SetEach(map[], base, canon);
    res := SetEach(common, call, canon);
    if Canonical(base, canon) && Canonical(call, canon) {
      MergeIsMerged(res, base, call, canon);
    }
  }

  lemma NamesOfCanonical(h: Header, canon: string -> string)
    requires Canonical(h, canon)
    ensures Names(h, canon) == NonEmpty(h)
  {
  }

  /** With canonical keys the merge is determined: map order cannot matter. */
  lemma MergeIsMerged(res: Header, base: Header, call: Header, canon: string -> string)
    requires Canonical(base, canon) && Canonical(call, canon)
    requires IsMergeOf(res, base, call, canon)
    ensures res == Merged(base, call)
  {
    NamesOfCanonical(base, canon);
    NamesOfCanonical(call, canon);
    var m := Merged(base, call);
    assert res.Keys == m.Keys;
    forall n | n in res
      ensures res[n] == m[n]
    {
      if n in NonEmpty(call) {
        var k :| k in call && |call[k]| > 0 && canon(k) == n && res[n] == [call[k][0]];
        assert k == n;
      } else {
        var k :| k in base && |base[k]| > 0 && canon(k) == n && res[n] == [base[k][0]];
        assert k == n;
      }
    }
  }

  /** A per-call header overrides the builder's value, keeping its first value only. */
  lemma MergedOverrides(base: Header, call: Header, n: string)
    requires n in call && |call[n]| > 0
    ensures n in Merged(base, call) && Merged(base, call)[n] == [call[n][0]]
  {
  }

  /** A builder header survives unless a non-empty per-call list names it. */
  lemma MergedKeepsBase(base: Header, call: Header, n: string)
    requires n in base && |base[n]| > 0
    requires n !in call || call[n] == []
    ensures n in Merged(base, call) && Merged(base, call)[n] == [base[n][0]]
  {
  }

  /** A per-call key with an empty list neither adds nor removes anything. */
  lemma MergedSkipsEmptyLists(base: Header, call: Header, n: string)
    requires n in call && call[n] == []
    ensures Merged(base, call) == Merged(base, call - {n})
  {
    assert NonEmpty(call) == NonEmpty(call - {n});
  }

  /** With nil or empty per-call headers, a builder header whose lists are all
      one-element (as `Headers.GetAll` produces) is sent unchanged. */
  lemma MergedWithoutCallHeaders(base: Header)
    requires forall n :: n in base ==> |base[n]| == 1
    ensures Merged(base, map[]) == base
  {
    assert NonEmpty(base) == base.Keys;
    forall n | n in base ensures [base[n][0]] == base[n] {
      assert |base[n]| == 1;
    }
  }

  /** The three merges of the root and `http` test suites. */
  lemma MergeExamples()
    ensures Merged(map["Content-Type" := ["application/json"]], map[])
         == map["Content-Type" := ["application/json"]]
    ensures Merged(map["Content-Type" := ["application/json"]], map["Accept" := ["application/json"]])
         == map["Content-Type" := ["application/json"], "Accept" := ["application/json"]]
    ensures Merged(map["Content-Type" := ["application/json"]], map["Content-Type" := ["text/plain", "x"]])
         == map["Content-Type" := ["text/plain"]]
  {
    MergedWithoutCallHeaders(map["Content-Type" := ["application/json"]]);
    var b := map["Content-Type" := ["application/json"]];
    var c := map["Accept" := ["application/json"]];
    assert NonEmpty(b) == {"Content-Type"};
    assert NonEmpty(c) == {"Accept"};
    var c2 := map["Content-Type" := ["text/plain", "x"]];
    assert NonEmpty(c2) == {"Content-Type"};
  }
}
