/** Values and string operations shared by every module of the model.

    JavaScript values that cross a JSON boundary are modelled by `Json`;
    `undefined` is `None` of an `Option<Json>`. String functions follow the
    JavaScript built-ins they stand for (`startsWith`, `includes`,
    `split`, `join`, `trim`, `toLowerCase`), restricted to ASCII where the
    built-in is Unicode-aware. */
module Common {

  datatype Option<+T> = None | Some(value: T)

  datatype Result<+T, +E> = Ok(value: T) | Failure(error: E)

  /** A JSON value as a request body or a tool result carries it. Numbers
      are integers: no model member depends on fractional values. */
  datatype Json =
    | JNull
    | JBool(b: bool)
    | JNum(n: int)
    | JStr(s: string)
    | JArr(items: seq<Json>)
    | JObj(fields: map<string, Json>)

  /** A JavaScript object read from a request body, as key/value pairs.
      Object spread `{...a, ...b}` is the map union `a + b`, whose right
      operand wins on shared keys. */
  type Object = map<string, Json>

  const EmptyObject: Json := JObj(map[])

  /** `obj[key]` or `map.get(key)`, `undefined` when the key is missing. */
  function Get<K, V>(obj: map<K, V>, key: K): (r: Option<V>)
    ensures r.Some? <==> key in obj
    ensures r.Some? ==> r.value == obj[key]
  {
    if key in obj then Some(obj[key]) else None
  }

  /** `v === null || v === undefined`, the test behind `??` and `?.`. */
  predicate Nullish(v: Option<Json>)
  {
    v.None? || v.value.JNull?
  }

  /** `v?.length` is truthy. */
  predicate HasLength(v: Option<Json>)
  {
    match v
    case Some(JArr(items)) => |items| > 0
    case Some(JStr(s)) => |s| > 0
    case Some(JObj(f)) => Truthy(Get(f, "length"))
    case _ => false
  }

  /** `v && Object.keys(v).length > 0`. */
  predicate HasKeys(v: Option<Json>)
  {
    match v
    case Some(JObj(f)) => |f| > 0
    case Some(JArr(items)) => |items| > 0
    case Some(JStr(s)) => |s| > 0
    case _ => false
  }

  /** JavaScript truthiness of a possibly-undefined JSON value. */
  predicate Truthy(v: Option<Json>)
  {
    match v
    case None => false
    case Some(JNull) => false
    case Some(JBool(b)) => b
    case Some(JNum(n)) => n != 0
    case Some(JStr(s)) => s != ""
    case Some(_) => true
  }

  /** An optional string field is truthy: present and non-empty. */
  predicate Present(o: Option<string>)
  {
    o.Some? && o.value != ""
  }

  /** `o || d` for an optional string. */
  function OrElse(o: Option<string>, d: string): (r: string)
    ensures Present(o) ==> r == o.value
    ensures !Present(o) ==> r == d
  {
    if Present(o) then o.value else d
  }

  // ---------------------------------------------------------------- strings

  predicate StartsWith(s: string, p: string)
  {
    |p| <= |s| && s[..|p|] == p
  }

  predicate EndsWith(s: string, p: string)
  {
    |p| <= |s| && s[|s| - |p|..] == p
  }

  /** `s.includes(sub)`. */
  predicate Contains(s: string, sub: string)
    decreases |s|
  {
    StartsWith(s, sub) || (|s| > 0 && Contains(s[1..], sub))
  }

  lemma {:induction false} ContainsAt(s: string, sub: string, i: nat)
    requires i + |sub| <= |s| && s[i..i + |sub|] == sub
    ensures Contains(s, sub)
    decreases i
  {
    if i == 0 {
      assert s[..|sub|] == sub;
    } else {
      assert s[1..][i - 1..i - 1 + |sub|] == s[i..i + |sub|];
      ContainsAt(s[1..], sub, i - 1);
    }
  }

  /** A string that contains `sub` still does with text put before it. */
  lemma {:induction false} ContainsAfterPrefix(p: string, s: string, sub: string)
    requires Contains(s, sub)
    ensures Contains(p + s, sub)
    decreases |p|
  {
    if |p| > 0 {
      ContainsAfterPrefix(p[1..], s, sub);
      assert (p + s)[1..] == p[1..] + s;
    } else {
      assert p + s == s;
    }
  }

  /** ... or text put after it. */
  lemma {:induction false} ContainsBeforeSuffix(s: string, t: string, sub: string)
    requires Contains(s, sub)
    ensures Contains(s + t, sub)
    decreases |s|
  {
    if StartsWith(s, sub) {
      assert (s + t)[..|sub|] == s[..|sub|];
    } else {
      ContainsBeforeSuffix(s[1..], t, sub);
      assert (s + t)[1..] == s[1..] + t;
    }
  }

  /** Every string contains the empty string, as `includes('')` does. */
  lemma ContainsEmpty(s: string)
    ensures Contains(s, "")
  {
    ContainsAt(s, "", 0);
  }

  /** ASCII `toLowerCase` of one character. */
  function LowerChar(c: char): char
  {
    if 'A' <= c <= 'Z' then (c as int + 32) as char else c
  }

  function Lower(s: string): (r: string)
    ensures |r| == |s|
    ensures forall i :: 0 <= i < |s| ==> r[i] == LowerChar(s[i])
  {
    seq(|s|, i requires 0 <= i < |s| => LowerChar(s[i]))
  }

  /** The ASCII part of what `trim` removes. */
  predicate IsSpace(c: char)
  {
    c == ' ' || c == '\t' || c == '\n' || c == '\r' || c as int == 11 || c as int == 12
  }

  function TrimStart(s: string): (r: string)
    ensures |r| <= |s| && r == s[|s| - |r|..]
    ensures r != [] ==> !IsSpace(r[0])
    ensures forall i :: 0 <= i < |s| - |r| ==> IsSpace(s[i])
  {
    if s != [] && IsSpace(s[0]) then
      var r := TrimStart(s[1..]);
      assert forall i :: 0 < i < |s| - |r| ==> s[i] == s[1..][i - 1];
      r
    else s
  }

  function TrimEnd(s: string): (r: string)
    ensures |r| <= |s| && r == s[..|r|]
    ensures r != [] ==> !IsSpace(r[|r| - 1])
    ensures forall i :: |r| <= i < |s| ==> IsSpace(s[i])
  {
    if s != [] && IsSpace(s[|s| - 1]) then TrimEnd(s[..|s| - 1]) else s
  }

  function Trim(s: string): (r: string)
  {
    TrimEnd(TrimStart(s))
  }

  /** What `trim` leaves has no surrounding whitespace, and it is empty
      exactly when the input is all whitespace. */
  lemma TrimProperties(s: string)
    ensures Trim(s) != [] ==> !IsSpace(Trim(s)[0]) && !IsSpace(Trim(s)[|Trim(s)| - 1])
    ensures Trim(s) == [] <==> forall i :: 0 <= i < |s| ==> IsSpace(s[i])
  {
    var t := TrimStart(s);
    var r := TrimEnd(t);
    if r != [] {
      assert r[0] == t[0];
    }
    if r == [] {
      forall i | 0 <= i < |s| ensures IsSpace(s[i]) { }
    } else {
      assert s[|s| - |t|] == t[0] == r[0];
    }
  }

  /** `s.split(d)` for a one-character separator: never empty. */
  function Split(s: string, d: char): (r: seq<string>)
    ensures |r| >= 1
    decreases |s|
  {
    if |s| == 0 then [""]
    else
      var rest := Split(s[1..], d);
      if s[0] == d then [""] + rest
      else [[s[0]] + rest[0]] + rest[1..]
  }

  /** `parts.join(sep)`. */
  function Join(parts: seq<string>, sep: string): string
    decreases |parts|
  {
    if |parts| == 0 then ""
    else if |parts| == 1 then parts[0]
    else parts[0] + sep + Join(parts[1..], sep)
  }

  /** No piece of a split contains the separator. */
  lemma {:induction false} SplitPiecesLackSeparator(s: string, d: char)
    ensures forall k :: 0 <= k < |Split(s, d)| ==> d !in Split(s, d)[k]
    decreases |s|
  {
    if |s| > 0 {
      SplitPiecesLackSeparator(s[1..], d);
    }
  }

  /** Joining the pieces with the separator gives the string back. */
  lemma {:induction false} JoinSplit(s: string, d: char)
    ensures Join(Split(s, d), [d]) == s
    decreases |s|
  {
    if |s| > 0 {
      var rest := Split(s[1..], d);
      JoinSplit(s[1..], d);
      if s[0] == d {
        assert Split(s, d) == [""] + rest;
        assert (([""] + rest)[1..]) == rest;
      } else {
        var first := [s[0]] + rest[0];
        assert Split(s, d) == [first] + rest[1..];
        if |rest| == 1 {
          assert Join(rest, [d]) == rest[0];
        } else {
          assert Join(rest, [d]) == rest[0] + [d] + Join(rest[1..], [d]);
          assert ([first] + rest[1..])[1..] == rest[1..];
        }
      }
    }
  }

  /** The last piece of a split is the text after the last separator:
      a suffix of the string preceded by the separator, or the whole
      string. */
  lemma SplitLastPiece(s: string, d: char)
    ensures var last := Split(s, d)[|Split(s, d)| - 1];
      EndsWith(s, last) && (|last| < |s| ==> s[|s| - |last| - 1] == d)
  {
    var parts := Split(s, d);
    var last := parts[|parts| - 1];
    JoinSplit(s, d);
    if |parts| == 1 {
      assert s == last;
      assert s[|s| - |last|..] == last;
    } else {
      var init := parts[..|parts| - 1];
      assert parts == init + [last];
      JoinAppend(init, [last], [d]);
      var front := Join(init, [d]);
      assert s == front + [d] + last;
      assert s[|s| - |last|..] == last;
      assert s[|s| - |last| - 1] == d;
    }
  }

  lemma {:induction false} SplitWithoutSeparator(s: string, d: char)
    requires d !in s
    ensures Split(s, d) == [s]
    decreases |s|
  {
    if |s| > 0 {
      SplitWithoutSeparator(s[1..], d);
      assert [s[0]] + s[1..] == s;
    }
  }

  lemma {:induction false} SplitAfterPiece(p: string, d: char, rest: string)
    requires d !in p
    ensures Split(p + [d] + rest, d) == [p] + Split(rest, d)
    decreases |p|
  {
    var s := p + [d] + rest;
    if |p| == 0 {
      assert s[1..] == rest;
    } else {
      assert s[1..] == p[1..] + [d] + rest;
      SplitAfterPiece(p[1..], d, rest);
      assert [s[0]] + p[1..] == p;
    }
  }

  /** A joined string contains each of its parts. */
  lemma {:induction false} JoinHasPart(parts: seq<string>, sep: string, k: nat)
    requires k < |parts|
    ensures Contains(Join(parts, sep), parts[k])
    decreases |parts|
  {
    if |parts| == 1 {
      ContainsAt(parts[0], parts[0], 0);
    } else if k == 0 {
      ContainsAt(parts[0], parts[0], 0);
      ContainsBeforeSuffix(parts[0], sep + Join(parts[1..], sep), parts[0]);
      assert parts[0] + (sep + Join(parts[1..], sep)) == Join(parts, sep);
    } else {
      JoinHasPart(parts[1..], sep, k - 1);
      ContainsAfterPrefix(parts[0] + sep, Join(parts[1..], sep), parts[k]);
    }
  }

  /** Joining two non-empty lists is joining each and putting the
      separator between. */
  lemma {:induction false} JoinAppend(xs: seq<string>, ys: seq<string>, sep: string)
    requires |xs| >= 1 && |ys| >= 1
    ensures Join(xs + ys, sep) == Join(xs, sep) + sep + Join(ys, sep)
    decreases |xs|
  {
    if |xs| == 1 {
      assert (xs + ys)[1..] == ys;
    } else {
      assert (xs + ys)[1..] == xs[1..] + ys;
      JoinAppend(xs[1..], ys, sep);
    }
  }

  /** Splitting a join gives the pieces back when no piece holds the separator. */
  lemma {:induction false} SplitJoin(parts: seq<string>, d: char)
    requires |parts| >= 1
    requires forall k :: 0 <= k < |parts| ==> d !in parts[k]
    ensures Split(Join(parts, [d]), d) == parts
    decreases |parts|
  {
    if |parts| == 1 {
      SplitWithoutSeparator(parts[0], d);
    } else {
      SplitJoin(parts[1..], d);
      SplitAfterPiece(parts[0], d, Join(parts[1..], [d]));
      assert [parts[0]] + parts[1..] == parts;
    }
  }

  function DigitChar(d: nat): char
    requires d < 10
  {
    ['0', '1', '2', '3', '4', '5', '6', '7', '8', '9'][d]
  }

  /** A template literal's rendering of an integer: its decimal digits,
      after a '-' when negative. */
  function IntToString(n: int): (r: string)
    ensures |r| >= 1
    ensures n >= 0 ==> forall i :: 0 <= i < |r| ==> '0' <= r[i] <= '9'
    decreases if n < 0 then 1 - n else n
  {
    if n < 0 then "-" + IntToString(-n)
    else if n < 10 then [DigitChar(n)]
    else IntToString(n / 10) + [DigitChar(n % 10)]
  }

  function DigitValue(c: char): nat
    requires '0' <= c <= '9'
  {
    c as int - '0' as int
  }

  predicate AllDigits(s: string)
  {
    forall i :: 0 <= i < |s| ==> '0' <= s[i] <= '9'
  }

  /** The number a string of decimal digits denotes. */
  function DecimalValue(s: string): nat
    requires AllDigits(s)
    decreases |s|
  {
    if |s| == 0 then 0 else DecimalValue(s[..|s| - 1]) * 10 + DigitValue(s[|s| - 1])
  }

  lemma DigitRoundTrip(d: nat)
    requires d < 10
    ensures DigitValue(DigitChar(d)) == d
  {
  }

  /** The digits of a non-negative integer read back as that integer,
      with no leading zero; a negative one is '-' and the digits of its
      magnitude. */
  lemma {:induction false} IntToStringValue(n: int)
    ensures n >= 0 ==> AllDigits(IntToString(n)) && DecimalValue(IntToString(n)) == n
    ensures n > 0 ==> IntToString(n)[0] != '0'
    ensures n < 0 ==> IntToString(n) == "-" + IntToString(-n)
    decreases if n < 0 then 1 - n else n
  {
    if 0 <= n < 10 {
      DigitRoundTrip(n);
      assert IntToString(n)[..0] == "";
    } else if n >= 10 {
      IntToStringValue(n / 10);
      var r := IntToString(n);
      assert r[..|r| - 1] == IntToString(n / 10);
      DigitRoundTrip(n % 10);
    }
  }

  /** `truncateText`: at most `maxLength` characters, and `...` after a cut. */
  function TruncateText(text: string, maxLength: nat): (r: string)
    ensures |r| <= maxLength + 3
    ensures |text| <= maxLength ==> r == text
  {
    if |text| <= maxLength then text else text[..maxLength] + "..."
  }

  /** A longer text keeps its first `maxLength` characters and gains
      `...`; truncating twice is truncating once. */
  lemma TruncateProperties(text: string, maxLength: nat)
    ensures |text| > maxLength ==>
      (|TruncateText(text, maxLength)| == maxLength + 3
       && StartsWith(TruncateText(text, maxLength), text[..maxLength])
       && EndsWith(TruncateText(text, maxLength), "..."))
    ensures TruncateText(TruncateText(text, maxLength), maxLength) == TruncateText(text, maxLength)
  {
    if |text| > maxLength {
      var r := text[..maxLength] + "...";
      assert r[..maxLength] == text[..maxLength];
      assert r[|r| - 3..] == "...";
    }
  }

  // ------------------------------------------------------------ sequences

  /** `xs.findIndex(p)`: the first index whose element satisfies `p`. */
  function FindFirst<T>(xs: seq<T>, p: T -> bool): (r: Option<nat>)
    ensures r.Some? ==> r.value < |xs| && p(xs[r.value])
    ensures r.Some? ==> forall j :: 0 <= j < r.value ==> !p(xs[j])
    ensures r.None? ==> forall j :: 0 <= j < |xs| ==> !p(xs[j])
    decreases |xs|
  {
    if |xs| == 0 then None
    else if p(xs[0]) then Some(0)
    else
      match FindFirst(xs[1..], p)
      case None => None
      case Some(i) => Some(i + 1)
  }

  /** `xs.filter(p)`. */
  function Filter<T>(xs: seq<T>, p: T -> bool): seq<T>
    decreases |xs|
  {
    if |xs| == 0 then []
    else (if p(xs[0]) then [xs[0]] else []) + Filter(xs[1..], p)
  }

  /** Filtering keeps exactly the elements that satisfy the predicate. */
  lemma {:induction false} FilterMembers<T>(xs: seq<T>, p: T -> bool)
    ensures |Filter(xs, p)| <= |xs|
    ensures forall x :: x in Filter(xs, p) <==> x in xs && p(x)
    decreases |xs|
  {
    if |xs| > 0 {
      FilterMembers(xs[1..], p);
      assert xs == [xs[0]] + xs[1..];
    }
  }

  /** Filtering distributes over concatenation, so it keeps the order. */
  lemma {:induction false} FilterAppend<T>(xs: seq<T>, ys: seq<T>, p: T -> bool)
    ensures Filter(xs + ys, p) == Filter(xs, p) + Filter(ys, p)
    decreases |xs|
  {
    if |xs| == 0 {
      assert xs + ys == ys;
    } else {
      var head := if p(xs[0]) then [xs[0]] else [];
      assert (xs + ys)[0] == xs[0] && (xs + ys)[1..] == xs[1..] + ys;
      assert Filter(xs + ys, p) == head + Filter(xs[1..] + ys, p);
      FilterAppend(xs[1..], ys, p);
      assert Filter(xs, p) == head + Filter(xs[1..], p);
    }
  }

  /** The positions in `xs` of the elements that satisfy `p`. */
  ghost function FilterIndices<T>(xs: seq<T>, p: T -> bool): seq<nat>
    decreases |xs|
  {
    if |xs| == 0 then []
    else
      var rest := FilterIndices(xs[1..], p);
      (if p(xs[0]) then [0] else []) + seq(|rest|, k requires 0 <= k < |rest| => rest[k] + 1)
  }

  /** The k-th kept element sits at the k-th position satisfying `p`;
      those positions increase, and no satisfying position is skipped. */
  lemma FilterInOrder<T>(xs: seq<T>, p: T -> bool)
    ensures var idx := FilterIndices(xs, p); var f := Filter(xs, p);
      |idx| == |f|
      && (forall k :: 0 <= k < |idx| ==> idx[k] < |xs| && f[k] == xs[idx[k]] && p(xs[idx[k]]))
      && (forall k, l :: 0 <= k < l < |idx| ==> idx[k] < idx[l])
      && (forall j :: 0 <= j < |xs| && p(xs[j]) ==> j in idx)
  {
    FilterIndicesPick(xs, p);
    FilterIndicesIncrease(xs, p);
    FilterIndicesComplete(xs, p);
  }

  lemma {:induction false} FilterIndicesPick<T>(xs: seq<T>, p: T -> bool)
    ensures |FilterIndices(xs, p)| == |Filter(xs, p)|
    ensures forall k :: 0 <= k < |FilterIndices(xs, p)| ==>
      FilterIndices(xs, p)[k] < |xs| && Filter(xs, p)[k] == xs[FilterIndices(xs, p)[k]] && p(Filter(xs, p)[k])
    decreases |xs|
  {
    if |xs| > 0 {
      FilterIndicesPick(xs[1..], p);
      var rest := FilterIndices(xs[1..], p);
      var fr := Filter(xs[1..], p);
      var h := if p(xs[0]) then 1 else 0;
      var idx := FilterIndices(xs, p);
      var f := Filter(xs, p);
      forall k | 0 <= k < |idx|
        ensures idx[k] < |xs| && f[k] == xs[idx[k]] && p(f[k])
      {
        if k >= h {
          assert idx[k] == rest[k - h] + 1;
          assert f[k] == fr[k - h];
          assert xs[idx[k]] == xs[1..][rest[k - h]];
        }
      }
    }
  }

  lemma {:induction false} FilterIndicesIncrease<T>(xs: seq<T>, p: T -> bool)
    ensures forall k, l :: 0 <= k < l < |FilterIndices(xs, p)| ==> FilterIndices(xs, p)[k] < FilterIndices(xs, p)[l]
    decreases |xs|
  {
    if |xs| > 0 {
      FilterIndicesIncrease(xs[1..], p);
      var rest := FilterIndices(xs[1..], p);
      var h := if p(xs[0]) then 1 else 0;
      var idx := FilterIndices(xs, p);
      forall k, l | 0 <= k < l < |idx|
        ensures idx[k] < idx[l]
      {
        assert idx[l] == rest[l - h] + 1;
        if k >= h {
          assert idx[k] == rest[k - h] + 1;
        }
      }
    }
  }

  lemma {:induction false} FilterIndicesComplete<T>(xs: seq<T>, p: T -> bool)
    ensures forall j :: 0 <= j < |xs| && p(xs[j]) ==> j in FilterIndices(xs, p)
    decreases |xs|
  {
    if |xs| > 0 {
      FilterIndicesComplete(xs[1..], p);
      var rest := FilterIndices(xs[1..], p);
      var h := if p(xs[0]) then 1 else 0;
      var idx := FilterIndices(xs, p);
      forall j | 0 <= j < |xs| && p(xs[j])
        ensures j in idx
      {
        if j == 0 {
          assert idx[0] == 0;
        } else {
          assert xs[1..][j - 1] == xs[j];
          var k :| 0 <= k < |rest| && rest[k] == j - 1;
          assert idx[h + k] == j;
        }
      }
    }
  }

  lemma {:induction false} FilterAll<T>(xs: seq<T>, p: T -> bool)
    requires forall i :: 0 <= i < |xs| ==> p(xs[i])
    ensures Filter(xs, p) == xs
    decreases |xs|
  {
    if |xs| > 0 {
      FilterAll(xs[1..], p);
    }
  }

  lemma {:induction false} FilterNone<T>(xs: seq<T>, p: T -> bool)
    requires forall i :: 0 <= i < |xs| ==> !p(xs[i])
    ensures Filter(xs, p) == []
    decreases |xs|
  {
    if |xs| > 0 {
      FilterNone(xs[1..], p);
    }
  }

  /** A predicate and its negation split a sequence without loss. */
  lemma {:induction false} FilterPartition<T>(xs: seq<T>, p: T -> bool, q: T -> bool)
    requires forall x :: q(x) == !p(x)
    ensures multiset(Filter(xs, p)) + multiset(Filter(xs, q)) == multiset(xs)
    decreases |xs|
  {
    if |xs| > 0 {
      FilterPartition(xs[1..], p, q);
      var x := xs[0];
      var head := if p(x) then [x] else [];
      var other := if q(x) then [x] else [];
      var a, b := Filter(xs[1..], p), Filter(xs[1..], q);
      assert Filter(xs, p) == head + a;
      assert Filter(xs, q) == other + b;
      assert xs == [x] + xs[1..];
      assert q(x) == !p(x);
      OneSideTakes(x, p(x), q(x));
      MultisetShuffle(head, other, a, b, [x], xs[1..]);
    }
  }

  lemma OneSideTakes<T>(x: T, inP: bool, inQ: bool)
    requires inQ == !inP
    ensures multiset(if inP then [x] else []) + multiset(if inQ then [x] else []) == multiset([x])
  {
  }

  lemma MultisetShuffle<T>(h: seq<T>, o: seq<T>, a: seq<T>, b: seq<T>, x: seq<T>, rest: seq<T>)
    requires multiset(h) + multiset(o) == multiset(x)
    requires multiset(a) + multiset(b) == multiset(rest)
    ensures multiset(h + a) + multiset(o + b) == multiset(x + rest)
  {
  }

  function Take<T>(xs: seq<T>, n: nat): (r: seq<T>)
    ensures |r| == if |xs| < n then |xs| else n
    ensures r == xs[..|r|]
  {
    if |xs| <= n then xs else xs[..n]
  }

  function Min(a: int, b: int): int
  {
    if a < b then a else b
  }
}
