/** The query-parameter store (`queryParams`) of the root package; the
    `requests` package declares the same type with the same code. The struct
    holds a Go map and every method has a value receiver: a call works on a
    copy of the struct, and the copy shares the map. So `Set`, `Add` and
    `Del` are seen through every handle, while `Reset`, which rebinds the
    copy's field, is not. */
module QueryParams {
  import GoMaps

  /** Each key with a non-empty value mapped to the value's last character,
      for the keys in `keys`. */
  function LastCharacters(m: map<string, string>, keys: set<string>): map<string, string> {
    map k | k in keys && k in m && |m[k]| > 0 :: [m[k][|m[k]| - 1]]
  }

  /** Taking one more key into account adds its last character, if any. */
  lemma LastCharactersStep(m: map<string, string>, keys: set<string>, key: string)
    requires key in m
    ensures LastCharacters(m, keys + {key}) ==
      if |m[key]| == 0 then LastCharacters(m, keys) else LastCharacters(m, keys)[key := [m[key][|m[key]| - 1]]]
  {
  }

  datatype Store = Store(values: GoMaps.StringMap)
  {
    /** `Add(key, value)`: overwrites, exactly as `Set` does; nothing is appended. */
    method Add(key: string, value: string) returns (q: Store)
      modifies values
      ensures q == this && values.entries == old(values.entries)[key := value]
    {
      values.Put(key, value);
      q := this;
    }

    /** `Set(key, value)` */
    method Set(key: string, value: string) returns (q: Store)
      modifies values
      ensures q == this && values.entries == old(values.entries)[key := value]
    {
      values.Put(key, value);
      q := this;
    }

    /** `Get(key)`: the stored value, "" when the key is missing. */
    function Get(key: string): (v: string)
      reads values
      ensures key in values.entries ==> v == values.entries[key]
      ensures key !in values.entries ==> v == ""
    {
      if |values.Lookup(key)| > 0 then values.Lookup(key) else ""
    }

    /** `Del(key)` */
    method Del(key: string) returns (q: Store)
      modifies values
      ensures q == this && values.entries == old(values.entries) - {key}
    {
      values.Delete(key);
      q := this;
    }

    /** `Values()`: the shared map itself. */
    function Values(): (m: GoMaps.StringMap)
      ensures m == values
    {
      values
    }

    /** `Clone()`. The inner loop ranges over the characters of each value
        and `Add`s each one, so only the last character survives and keys
        with empty values are dropped. The receiver is not changed. */
    method Clone() returns (c: Store)
      ensures fresh(c.values)
      ensures c.values.entries == LastCharacters(values.entries, values.entries.Keys)
    {
      c := NewQueryParams();
      var todo := values.entries.Keys;
      ghost var done: set<string> := {};
      while todo != {}
        invariant todo <= values.entries.Keys && done == values.entries.Keys - todo
        invariant fresh(c.values)
        invariant c.values.entries == LastCharacters(values.entries, done)
        decreases todo
      {
        var key :| key in todo;
        var value := values.entries[key];
        ghost var before := c.values.entries;
        for i := 0 to |value|
          invariant c.values.entries == if i == 0 then before else before[key := [value[i - 1]]]
        {
          var _ := c.Add(key, [value[i]]);
        }
        LastCharactersStep(values.entries, done, key);
        todo, done := todo - {key}, done + {key};
      }
    }

    /** `Reset()`: a copy of the store over a new empty map; the receiver,
        and every other handle on the old map, keeps its entries. */
    method Reset() returns (q: Store)
      ensures fresh(q.values) && q.values.entries == map[]
    {
      var m := new GoMaps.StringMap();
      q := this.(values := m);
    }

    /** `Len()`: the number of keys. */
    function Len(): (n: nat)
      reads values
      ensures n == |values.entries.Keys|
    {
      |values.entries|
    }
  }

  /** `NewQueryParams()`: an empty store over a fresh map. */
  method NewQueryParams() returns (q: Store)
    ensures fresh(q.values) && q.values.entries == map[] && q.Len() == 0
  {
    var m := new GoMaps.StringMap();
    q := Store(m);
  }

  /** What `Clone` was evidently meant to be: a fresh map with the same entries. */
  method CopyValues(q: Store) returns (c: Store)
    ensures fresh(c.values) && c.values.entries == q.values.entries
  {
    c := NewQueryParams();
    var todo := q.values.entries.Keys;
    while todo != {}
      invariant todo <= q.values.entries.Keys
      invariant fresh(c.values)
      invariant c.values.entries.Keys == q.values.entries.Keys - todo
      invariant forall k :: k in c.values.entries ==> c.values.entries[k] == q.values.entries[k]
      decreases todo
    {
      var key :| key in todo;
      var _ := c.Add(key, q.values.entries[key]);
      todo := todo - {key};
    }
  }

  /** The clone of `{"q": "go", "empty": ""}` is `{"q": "o"}`, not a copy. */
  lemma CloneKeepsLastCharacter()
    ensures var m := map["q" := "go", "empty" := ""];
            LastCharacters(m, m.Keys) == map["q" := "o"] != m
  {
    var m := map["q" := "go", "empty" := ""];
    assert m["q"][|m["q"]| - 1] == 'o';
    assert LastCharacters(m, m.Keys).Keys == {"q"};
  }
}

/** The `http` package's query-parameter store: the same struct, with
    methods that return nothing. `Clone` builds a store it throws away and
    `Reset` rebinds the field of a copy, so neither has any effect. */
module HttpQueryParams {
  import opened QueryParams

  /** `Add(key, value)`: overwrites. */
  method Add(q: Store, key: string, value: string)
    modifies q.values
    ensures q.values.entries == old(q.values.entries)[key := value]
  {
    q.values.Put(key, value);
  }

  /** `Set(key, value)` */
  method Set(q: Store, key: string, value: string)
    modifies q.values
    ensures q.values.entries == old(q.values.entries)[key := value]
  {
    q.values.Put(key, value);
  }

  /** `Del(key)` */
  method Del(q: Store, key: string)
    modifies q.values
    ensures q.values.entries == old(q.values.entries) - {key}
  {
    q.values.Delete(key);
  }

  /** `Clone()`: the same nested loops into a new store, which is then dropped. */
  method Clone(q: Store)
    ensures unchanged(q.values)
  {
    var clone := NewQueryParams();
    var todo := q.values.entries.Keys;
    while todo != {}
      invariant todo <= q.values.entries.Keys
      invariant fresh(clone.values)
      decreases todo
    {
      var key :| key in todo;
      var value := q.values.entries[key];
      for i := 0 to |value| {
        var _ := clone.Add(key, [value[i]]);
      }
      todo := todo - {key};
    }
  }

  /** `Reset()`: rebinds the map of a copy of the struct; nothing observable changes. */
  method Reset(q: Store)
    ensures unchanged(q.values)
  {
    var m := new GoMaps.StringMap();
    var copy := q.(values := m);
  }
}
