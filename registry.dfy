/**
 * The registry path handling of main.go: the registry flag is split on `/`
 * with Go's `strings.FieldsFunc` (main.go:44-45) and the first field names the
 * layer cache, `<first field>/cache` (main.go:74).
 */
module Registry {
  import opened Wrappers

  /** The splitter passed to FieldsFunc (main.go:44). */
  predicate IsSeparator(c: char) {
    c == '/'
  }

  predicate SlashFree(s: string) {
    forall i | 0 <= i < |s| :: !IsSeparator(s[i])
  }

  predicate AllSlashes(s: string) {
    forall i | 0 <= i < |s| :: IsSeparator(s[i])
  }

  predicate HasField(s: string) {
    exists i | 0 <= i < |s| :: !IsSeparator(s[i])
  }

  /** A field as FieldsFunc returns it: non-empty and free of separators. */
  predicate IsField(f: string) {
    f != [] && SlashFree(f)
  }

  /** The field gathered so far, if any, is emitted when a separator or the end is reached. */
  function Flush(field: string): seq<string> {
    if field == [] then [] else [field]
  }

  /**
   * FieldsFunc's left-to-right scan: `field` holds the run of non-separators
   * read since the last separator.
   */
  function Scan(s: string, field: string): seq<string>
    decreases |s|
  {
    if s == [] then
      Flush(field)
    else if IsSeparator(s[0]) then
      Flush(field) + Scan(s[1..], [])
    else
      Scan(s[1..], field + [s[0]])
  }

  /** strings.FieldsFunc(s, canSplit) with canSplit from main.go:44. */
  function Fields(s: string): seq<string> {
    Scan(s, [])
  }

  /** `s` with every separator removed. */
  function Strip(s: string): string {
    if s == [] then [] else (if IsSeparator(s[0]) then [] else [s[0]]) + Strip(s[1..])
  }

  function Concat(fs: seq<string>): string {
    if fs == [] then [] else fs[0] + Concat(fs[1..])
  }

  /** The fields put back together with one separator between neighbours. */
  function Join(fs: seq<string>): string {
    if |fs| == 0 then [] else if |fs| == 1 then fs[0] else fs[0] + "/" + Join(fs[1..])
  }

  datatype RegistryError = InvalidRegistryAddress

  /**
   * The value of kaniko's `--cache-repo` flag (main.go:74): the first field
   * followed by "/cache". main.go indexes `seq[0]` unguarded and panics when
   * there is no field; here that case is an error.
   */
  function CacheRepo(registry: string): (r: Result<string, RegistryError>)
    ensures r.Ok? <==> HasField(registry)
  {
    FieldsEmptyIff(registry);
    var fs := Fields(registry);
    if |fs| == 0 then Err(InvalidRegistryAddress) else Ok(fs[0] + "/cache")
  }

  lemma {:induction false} ConcatAppend(a: seq<string>, b: seq<string>)
    ensures Concat(a + b) == Concat(a) + Concat(b)
  {
    if a == [] {
      assert a + b == b;
    } else {
      assert (a + b)[1..] == a[1..] + b;
      ConcatAppend(a[1..], b);
    }
  }

  lemma {:induction false} ScanWellFormed(s: string, field: string)
    requires SlashFree(field)
    ensures forall k | 0 <= k < |Scan(s, field)| :: IsField(Scan(s, field)[k])
    decreases |s|
  {
    if s == [] {
    } else if IsSeparator(s[0]) {
      ScanWellFormed(s[1..], []);
    } else {
      ScanWellFormed(s[1..], field + [s[0]]);
    }
  }

  /** Every field is non-empty and contains no separator (main.go:44-45). */
  lemma FieldsWellFormed(s: string)
    ensures forall k | 0 <= k < |Fields(s)| :: IsField(Fields(s)[k])
  {
    ScanWellFormed(s, []);
  }

  lemma {:induction false} ScanConcat(s: string, field: string)
    ensures Concat(Scan(s, field)) == field + Strip(s)
    decreases |s|
  {
    if s == [] {
    } else if IsSeparator(s[0]) {
      ScanConcat(s[1..], []);
      ConcatAppend(Flush(field), Scan(s[1..], []));
    } else {
      ScanConcat(s[1..], field + [s[0]]);
      assert field + [s[0]] + Strip(s[1..]) == field + ([s[0]] + Strip(s[1..]));
    }
  }

  /** The fields, concatenated, are the registry with every separator removed. */
  lemma FieldsConcat(s: string)
    ensures Concat(Fields(s)) == Strip(s)
  {
    ScanConcat(s, []);
  }

  lemma {:induction false} ScanEmptyIff(s: string, field: string)
    ensures Scan(s, field) == [] <==> field == [] && AllSlashes(s)
    decreases |s|
  {
    if s == [] {
    } else if IsSeparator(s[0]) {
      ScanEmptyIff(s[1..], []);
      assert AllSlashes(s) <==> AllSlashes(s[1..]) by {
        if AllSlashes(s[1..]) {
          forall i | 0 <= i < |s| ensures IsSeparator(s[i]) {
            if i > 0 { assert s[i] == s[1..][i - 1]; }
          }
        }
      }
    } else {
      ScanEmptyIff(s[1..], field + [s[0]]);
    }
  }

  /** There is no field exactly when the registry is empty or all separators: the panic case. */
  lemma FieldsEmptyIff(s: string)
    ensures Fields(s) == [] <==> !HasField(s)
  {
    ScanEmptyIff(s, []);
  }

  lemma {:induction false} ScanAppendWord(w: string, s: string, field: string)
    requires SlashFree(w)
    ensures Scan(w + s, field) == Scan(s, field + w)
    decreases |w|
  {
    if w == [] {
      assert w + s == s && field + w == field;
    } else {
      assert (w + s)[0] == w[0] && (w + s)[1..] == w[1..] + s;
      ScanAppendWord(w[1..], s, field + [w[0]]);
      assert field + [w[0]] + w[1..] == field + w;
    }
  }

  lemma {:induction false} ScanSkipSlashes(pre: string, s: string)
    requires AllSlashes(pre)
    ensures Scan(pre + s, []) == Scan(s, [])
    decreases |pre|
  {
    if pre == [] {
      assert pre + s == s;
    } else {
      assert (pre + s)[0] == pre[0] && (pre + s)[1..] == pre[1..] + s;
      ScanSkipSlashes(pre[1..], s);
    }
  }

  lemma {:induction false} ScanSplit(a: string, b: string, field: string)
    ensures Scan(a + "/" + b, field) == Scan(a, field) + Fields(b)
    decreases |a|
  {
    var s := a + "/" + b;
    if a == [] {
      assert s == "/" + b && s[1..] == b;
    } else {
      assert s[0] == a[0] && s[1..] == a[1..] + "/" + b;
      if IsSeparator(a[0]) {
        ScanSplit(a[1..], b, []);
      } else {
        ScanSplit(a[1..], b, field + [a[0]]);
      }
    }
  }

  /** A separator cuts the registry into two independently split halves. */
  lemma FieldsSplit(a: string, b: string)
    ensures Fields(a + "/" + b) == Fields(a) + Fields(b)
  {
    ScanSplit(a, b, []);
  }

  /** Doubled separators collapse into one. */
  lemma FieldsCollapse(a: string, b: string)
    ensures Fields(a + "//" + b) == Fields(a + "/" + b)
  {
    assert a + "//" + b == a + "/" + ("/" + b);
    FieldsSplit(a, "/" + b);
    assert "/" + b == [] + "/" + b;
    FieldsSplit([], b);
    FieldsSplit(a, b);
  }

  /** Leading and trailing separators are dropped. */
  lemma FieldsTrim(s: string)
    ensures Fields("/" + s) == Fields(s)
    ensures Fields(s + "/") == Fields(s)
  {
    assert "/" + s == [] + "/" + s;
    FieldsSplit([], s);
    assert s + "/" == s + "/" + [];
    FieldsSplit(s, []);
  }

  lemma FieldsOfField(f: string)
    requires IsField(f)
    ensures Fields(f) == [f]
  {
    assert f + [] == f;
    ScanAppendWord(f, [], []);
    assert [] + f == f;
  }

  /** Splitting undoes joining: the fields of `f1/f2/.../fn` are f1, ..., fn. */
  lemma {:induction false} FieldsOfJoin(fs: seq<string>)
    requires forall k | 0 <= k < |fs| :: IsField(fs[k])
    ensures Fields(Join(fs)) == fs
  {
    if |fs| == 0 {
    } else if |fs| == 1 {
      FieldsOfField(fs[0]);
    } else {
      FieldsOfJoin(fs[1..]);
      FieldsOfField(fs[0]);
      FieldsSplit(fs[0], Join(fs[1..]));
      assert [fs[0]] + fs[1..] == fs;
    }
  }

  /**
   * The first field of a registry written as leading separators, a field `f`,
   * and a remainder that is empty or starts at a separator, is `f`.
   */
  lemma FirstField(pre: string, f: string, rest: string)
    requires AllSlashes(pre) && IsField(f)
    requires rest == [] || IsSeparator(rest[0])
    ensures |Fields(pre + f + rest)| > 0 && Fields(pre + f + rest)[0] == f
  {
    assert pre + f + rest == pre + (f + rest);
    ScanSkipSlashes(pre, f + rest);
    ScanAppendWord(f, rest, []);
    assert [] + f == f;
    if rest != [] {
      assert Scan(rest, f) == [f] + Scan(rest[1..], []);
    }
  }

  /** The cache repository is the first field of the registry followed by "/cache". */
  lemma CacheRepoOfFirstField(pre: string, f: string, rest: string)
    requires AllSlashes(pre) && IsField(f)
    requires rest == [] || IsSeparator(rest[0])
    ensures CacheRepo(pre + f + rest) == Ok(f + "/cache")
  {
    FirstField(pre, f, rest);
  }

  /** The example of the cache-repo derivation: host "myhost.com" gives "myhost.com/cache". */
  lemma CacheRepoExample(registry: string)
    requires registry == "myhost.com/org/image"
    ensures CacheRepo(registry) == Ok("myhost.com/cache")
  {
    var f := "myhost.com";
    assert IsField(f) by {
      forall i | 0 <= i < |f| ensures !IsSeparator(f[i]) {
      }
    }
    assert registry == [] + f + "/org/image";
    CacheRepoOfFirstField([], f, "/org/image");
    assert f + "/cache" == "myhost.com/cache";
  }

  /** The empty and the all-separator registry have no cache repository. */
  lemma CacheRepoNoField()
    ensures CacheRepo("") == Err(InvalidRegistryAddress)
    ensures CacheRepo("//") == Err(InvalidRegistryAddress)
  {
    assert !HasField("//") by {
      forall i | 0 <= i < 2 ensures IsSeparator("//"[i]) {
      }
    }
  }
}
