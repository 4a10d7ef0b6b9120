/** Values and helpers shared by the storefront's store-resolution modules:
    the canonical Store record, JSON values, JavaScript string operations
    (split, startsWith, find, parseInt, number-to-string) and the two
    regular-expression captures the endpoint plugin relies on. */
module Common {

  datatype Option<+T> = None | Some(value: T) {
    function GetOr(default: T): T {
      match this
      case Some(v) => v
      case None => default
    }
  }

  datatype Result<+T, +E> = Ok(value: T) | Err(error: E)

  /** A store identifier as JavaScript holds it: a number (`site_id` of the
      sites directory) or a string (`id` of a GraphQL node or of the fallback list). */
  datatype StoreId = NumId(n: int) | TextId(s: string)

  /** JavaScript truthiness of an identifier: `0` and `''` are falsy. */
  predicate TruthyId(id: StoreId) {
    match id
    case NumId(n) => n != 0
    case TextId(s) => s != ""
  }

  /** The `Store` record of both store services. Optional members are `None`
      when the record has no such property (or it is `null`). */
  datatype Store = Store(
    id: StoreId,
    name: string,
    slug: string,
    description: Option<string>,
    url: string,
    graphqlEndpoint: string,
    thumbnail: Option<string>)

  /** A record of the sites directory (`view-all-sites`), as useStoreManager.ts types it. */
  datatype SiteRecord = SiteRecord(
    site_id: int,
    site_url: string,
    site_name: string,
    admin_email: string,
    language: string)

  /** What `JSON.parse` makes of a stored `selectedStore` text: the store
      record written by `JSON.stringify(store)`, or text that does not parse. */
  datatype StoredRecord = StoreJson(store: Store) | Corrupt

  /** JSON values (GraphQL payloads and query variables). */
  datatype Json =
    | JNull
    | JBool(b: bool)
    | JNumber(n: int)
    | JString(s: string)
    | JArray(items: seq<Json>)
    | JObject(fields: map<string, Json>)

  /** JavaScript truthiness of a JSON value. */
  predicate Truthy(j: Json) {
    match j
    case JNull => false
    case JBool(b) => b
    case JNumber(n) => n != 0
    case JString(s) => s != ""
    case JArray(_) => true
    case JObject(_) => true
  }

  /** Property access `j?.key` on a JSON value; `None` is `undefined`. */
  function Member(j: Option<Json>, key: string): (r: Option<Json>)
    ensures r.Some? <==> j.Some? && j.value.JObject? && key in j.value.fields
    ensures r.Some? ==> r.value == j.value.fields[key]
  {
    if j.Some? && j.value.JObject? && key in j.value.fields then Some(j.value.fields[key]) else None
  }

  /** `s.startsWith(p)` */
  predicate StartsWith(s: string, p: string) {
    |p| <= |s| && s[..|p|] == p
  }

  /** `host.split('.')[0]`: the text before the first dot (all of it when there is none). */
  function FirstLabel(host: string): (r: string)
    ensures |r| <= |host| && r == host[..|r|]
    ensures forall i :: 0 <= i < |r| ==> r[i] != '.'
    ensures |r| < |host| ==> host[|r|] == '.'
  {
    if host == [] || host[0] == '.' then [] else [host[0]] + FirstLabel(host[1..])
  }

  /** The first label of `head.rest` is `head` when it has no dot. */
  lemma {:induction false} FirstLabelOf(head: string, rest: string)
    requires forall i :: 0 <= i < |head| ==> head[i] != '.'
    ensures FirstLabel(head + "." + rest) == head
  {
    if head != [] {
      assert (head + "." + rest)[1..] == head[1..] + "." + rest;
      FirstLabelOf(head[1..], rest);
    }
  }

  /** The host `lakshmi.site.cataloghub.in` has first label `lakshmi`. */
  lemma LakshmiLabel()
    ensures FirstLabel("lakshmi.site.cataloghub.in") == "lakshmi"
  {
    FirstLabelOf("lakshmi", "site.cataloghub.in");
    assert "lakshmi" + "." + "site.cataloghub.in" == "lakshmi.site.cataloghub.in";
  }

  /** `list.find(s => s.slug === slug)`: the first store with that slug. */
  function FindBySlug(stores: seq<Store>, slug: string): (r: Option<Store>)
    ensures r.None? <==> forall i :: 0 <= i < |stores| ==> stores[i].slug != slug
    ensures r.Some? ==> exists i :: (0 <= i < |stores| && stores[i] == r.value && r.value.slug == slug
      && forall j :: 0 <= j < i ==> stores[j].slug != slug)
  {
    if stores == [] then None
    else if stores[0].slug == slug then Some(stores[0])
    else
      var r := FindBySlug(stores[1..], slug);
      assert r.Some? ==> exists i :: (1 <= i < |stores| && stores[i] == r.value && r.value.slug == slug
        && forall j :: 0 <= j < i ==> stores[j].slug != slug) by {
        if r.Some? {
          var k :| 0 <= k < |stores[1..]| && stores[1..][k] == r.value && r.value.slug == slug
            && forall j :: 0 <= j < k ==> stores[1..][j].slug != slug;
          assert stores[k + 1] == r.value;
        }
      }
      r
  }

  // ---------------------------------------------------------------------
  // Decimal text of numbers

  predicate IsDigit(c: char) {
    '0' <= c <= '9'
  }

  function DigitChar(d: nat): (c: char)
    requires d < 10
    ensures IsDigit(c) && c as int - '0' as int == d
  {
    ('0' as int + d) as char
  }

  /** `String(n)` for a non-negative integer. */
  function NatToString(n: nat): (r: string)
    ensures |r| > 0
    ensures forall i :: 0 <= i < |r| ==> IsDigit(r[i])
  {
    if n < 10 then [DigitChar(n)] else NatToString(n / 10) + [DigitChar(n % 10)]
  }

  /** `String(n)` for an integer (JavaScript writes a leading `-` for negatives). */
  function IntToString(n: int): string {
    if n < 0 then "-" + NatToString(-n) else NatToString(n)
  }

  /** The value of a string of decimal digits. */
  function DigitsValue(s: string): nat
    requires forall i :: 0 <= i < |s| ==> IsDigit(s[i])
  {
    if s == [] then 0
    else
      assert IsDigit(s[|s| - 1]);
      DigitsValue(s[..|s| - 1]) * 10 + (s[|s| - 1] as int - '0' as int)
  }

  /** The longest prefix of `s` made of decimal digits. */
  function LeadingDigits(s: string): (r: string)
    ensures |r| <= |s| && r == s[..|r|]
    ensures forall i :: 0 <= i < |r| ==> IsDigit(r[i])
    ensures |r| < |s| ==> !IsDigit(s[|r|])
  {
    if s == [] || !IsDigit(s[0]) then [] else [s[0]] + LeadingDigits(s[1..])
  }

  /** `parseInt(s)` on decimal text: an optional sign, then the longest run of
      digits; `None` stands for `NaN` (no digit after the sign). */
  function ParseInt(s: string): Option<int> {
    var negative := |s| > 0 && s[0] == '-';
    var rest := if |s| > 0 && (s[0] == '-' || s[0] == '+') then s[1..] else s;
    var digits := LeadingDigits(rest);
    if digits == [] then None
    else
      var value: int := DigitsValue(digits);
      Some(if negative then -value else value)
  }

  lemma {:induction false} NatToStringValue(n: nat)
    ensures DigitsValue(NatToString(n)) == n
  {
    if n >= 10 {
      NatToStringValue(n / 10);
      var s := NatToString(n);
      assert s[..|s| - 1] == NatToString(n / 10);
    }
  }

  lemma {:induction false} LeadingDigitsOfDigits(s: string)
    requires forall i :: 0 <= i < |s| ==> IsDigit(s[i])
    ensures LeadingDigits(s) == s
  {
    if s != [] {
      LeadingDigitsOfDigits(s[1..]);
    }
  }

  /** Reading back a number written with `String(n)`: `parseInt(String(n)) === n`. */
  lemma ParseIntOfIntToString(n: int)
    ensures ParseInt(IntToString(n)) == Some(n)
  {
    var m: nat := if n < 0 then -n else n;
    var digits := NatToString(m);
    LeadingDigitsOfDigits(digits);
    NatToStringValue(m);
    if n < 0 {
      assert IntToString(n)[1..] == digits;
    } else {
      assert digits[0] != '-' && digits[0] != '+';
    }
  }

  // ---------------------------------------------------------------------
  // `str.match(/prefix([^stops]+)/)[1]`

  /** The pattern `prefix([^stops]+)` matches in `s` at index `i`. */
  predicate MatchAt(s: string, i: int, prefix: string, stops: set<char>) {
    0 <= i && i + |prefix| < |s| && s[i..i + |prefix|] == prefix && s[i + |prefix|] !in stops
  }

  /** The longest prefix of `s` without a character of `stops` (`[^stops]*`). */
  function TakeUntil(s: string, stops: set<char>): (r: string)
    ensures |r| <= |s| && r == s[..|r|]
    ensures forall i :: 0 <= i < |r| ==> r[i] !in stops
    ensures |r| < |s| ==> s[|r|] in stops
  {
    if s == [] || s[0] in stops then [] else [s[0]] + TakeUntil(s[1..], stops)
  }

  /** The capture group of the leftmost match of `prefix([^stops]+)` in `s`, as
      JavaScript's `String.prototype.match` finds it (the run is greedy and the
      pattern ends after it, so the first index where the pattern can match
      decides). */
  function FirstCapture(s: string, prefix: string, stops: set<char>): Option<string>
    decreases |s|
  {
    if |s| <= |prefix| then None
    else if s[..|prefix|] == prefix && s[|prefix|] !in stops then Some(TakeUntil(s[|prefix|..], stops))
    else FirstCapture(s[1..], prefix, stops)
  }

  lemma MatchAtShift(s: string, i: int, prefix: string, stops: set<char>)
    requires |s| > 0 && i >= 1
    ensures MatchAt(s, i, prefix, stops) <==> MatchAt(s[1..], i - 1, prefix, stops)
  {
    if i + |prefix| < |s| {
      assert s[1..][i - 1..i - 1 + |prefix|] == s[i..i + |prefix|];
    }
  }

  /** FirstCapture finds nothing exactly when the pattern matches nowhere, and
      otherwise returns the greedy capture at the leftmost matching index. */
  lemma {:induction false} FirstCaptureSpec(s: string, prefix: string, stops: set<char>)
    ensures FirstCapture(s, prefix, stops).None? <==> forall i :: !MatchAt(s, i, prefix, stops)
    ensures FirstCapture(s, prefix, stops).Some? ==>
      exists i :: MatchAt(s, i, prefix, stops)
        && (forall j :: 0 <= j < i ==> !MatchAt(s, j, prefix, stops))
        && FirstCapture(s, prefix, stops).value == TakeUntil(s[i + |prefix|..], stops)
    decreases |s|
  {
    if |s| <= |prefix| {
      forall i ensures !MatchAt(s, i, prefix, stops) { }
    } else if s[..|prefix|] == prefix && s[|prefix|] !in stops {
      assert MatchAt(s, 0, prefix, stops);
    } else {
      assert !MatchAt(s, 0, prefix, stops);
      FirstCaptureSpec(s[1..], prefix, stops);
      if FirstCapture(s[1..], prefix, stops).Some? {
        var k :| MatchAt(s[1..], k, prefix, stops)
          && (forall j :: 0 <= j < k ==> !MatchAt(s[1..], j, prefix, stops))
          && FirstCapture(s[1..], prefix, stops).value == TakeUntil(s[1..][k + |prefix|..], stops);
        LeftmostMatchShift(s, k, prefix, stops);
      } else {
        NoMatchShift(s, prefix, stops);
      }
    }
  }

  /** A leftmost match at `k` in `s[1..]`, when `s` does not match at 0, is a
      leftmost match at `k + 1` in `s`, capturing the same text. */
  lemma LeftmostMatchShift(s: string, k: int, prefix: string, stops: set<char>)
    requires |s| > 0 && !MatchAt(s, 0, prefix, stops)
    requires MatchAt(s[1..], k, prefix, stops)
    requires forall j :: 0 <= j < k ==> !MatchAt(s[1..], j, prefix, stops)
    ensures MatchAt(s, k + 1, prefix, stops)
    ensures forall j :: 0 <= j < k + 1 ==> !MatchAt(s, j, prefix, stops)
    ensures s[1..][k + |prefix|..] == s[k + 1 + |prefix|..]
  {
    MatchAtShift(s, k + 1, prefix, stops);
    forall j | 1 <= j < k + 1 ensures !MatchAt(s, j, prefix, stops) {
      MatchAtShift(s, j, prefix, stops);
    }
  }

  /** No match in `s[1..]` and none at 0 means no match in `s`. */
  lemma NoMatchShift(s: string, prefix: string, stops: set<char>)
    requires |s| > 0 && !MatchAt(s, 0, prefix, stops)
    requires forall i :: !MatchAt(s[1..], i, prefix, stops)
    ensures forall i :: !MatchAt(s, i, prefix, stops)
  {
    forall i ensures !MatchAt(s, i, prefix, stops) {
      if i >= 1 {
        MatchAtShift(s, i, prefix, stops);
      }
    }
  }

  /** A capture is never empty and never contains a stop character. */
  lemma FirstCaptureShape(s: string, prefix: string, stops: set<char>)
    requires FirstCapture(s, prefix, stops).Some?
    ensures var v := FirstCapture(s, prefix, stops).value;
      |v| > 0 && forall k :: 0 <= k < |v| ==> v[k] !in stops
  {
    FirstCaptureSpec(s, prefix, stops);
  }

  /** When `s` is `prefix + v + rest` with `v` a non-empty run free of stop
      characters and `rest` empty or starting with a stop, the capture is `v`. */
  lemma FirstCaptureAtStart(prefix: string, v: string, rest: string, stops: set<char>)
    requires |v| > 0 && forall k :: 0 <= k < |v| ==> v[k] !in stops
    requires rest == [] || rest[0] in stops
    ensures FirstCapture(prefix + v + rest, prefix, stops) == Some(v)
  {
    var s := prefix + v + rest;
    assert s[..|prefix|] == prefix;
    assert s[|prefix|] == v[0];
    assert s[|prefix|..] == v + rest;
    TakeUntilOfRun(v, rest, stops);
  }

  /** The same after any text `p` in which the pattern does not match: an
      unanchored match skips `p` and captures `v`. */
  lemma {:induction false} FirstCaptureAfter(p: string, prefix: string, v: string, rest: string, stops: set<char>)
    requires |v| > 0 && forall k :: 0 <= k < |v| ==> v[k] !in stops
    requires rest == [] || rest[0] in stops
    requires forall i :: 0 <= i < |p| ==> !MatchAt(p + prefix + v + rest, i, prefix, stops)
    ensures FirstCapture(p + prefix + v + rest, prefix, stops) == Some(v)
    decreases |p|
  {
    if p == [] {
      assert p + prefix + v + rest == prefix + v + rest;
      FirstCaptureAtStart(prefix, v, rest, stops);
    } else {
      var s := p + prefix + v + rest;
      assert !MatchAt(s, 0, prefix, stops);
      assert s[1..] == p[1..] + prefix + v + rest;
      forall i | 0 <= i < |p[1..]|
        ensures !MatchAt(p[1..] + prefix + v + rest, i, prefix, stops)
      {
        MatchAtShift(s, i + 1, prefix, stops);
      }
      FirstCaptureAfter(p[1..], prefix, v, rest, stops);
    }
  }

  lemma {:induction false} TakeUntilOfRun(v: string, rest: string, stops: set<char>)
    requires forall k :: 0 <= k < |v| ==> v[k] !in stops
    requires rest == [] || rest[0] in stops
    ensures TakeUntil(v + rest, stops) == v
  {
    if v != [] {
      assert (v + rest)[1..] == v[1..] + rest;
      TakeUntilOfRun(v[1..], rest, stops);
    } else {
      assert v + rest == rest;
    }
  }
}
