/**
 * Shared value types and the JavaScript string and number primitives the
 * front-end relies on: digit strings, `String(n)`, `padStart`, `trim`,
 * `toLowerCase`, `includes`, `startsWith`, `split`, `join`, `parseInt` and
 * `Number(...)` on strings.
 *
 * Only the decimal-integer fragment of `parseInt` and `Number` is modelled:
 * fractions, exponents, hexadecimal and `Infinity` are outside the model.
 * `None` stands for `NaN`.
 */
module Common {

  datatype Option<T> = None | Some(value: T)

  /** A value `JSON.parse` can produce (numbers restricted to integers). */
  datatype Json =
    | JNull
    | JBool(b: bool)
    | JNumber(n: int)
    | JString(s: string)
    | JArray(items: seq<Json>)
    | JObject(fields: seq<(string, Json)>)

  /** `obj[key]` of a parsed object: the last member with that name wins. */
  function Member(fields: seq<(string, Json)>, key: string): (r: Option<Json>)
    ensures r.Some? <==> exists k :: 0 <= k < |fields| && fields[k].0 == key
  {
    if |fields| == 0 then None
    else
      var last := fields[|fields| - 1];
      if last.0 == key then Some(last.1)
      else
        var r := Member(fields[..|fields| - 1], key);
        assert forall k :: 0 <= k < |fields| - 1 ==> fields[..|fields| - 1][k] == fields[k];
        r
  }

  // ---------------------------------------------------------------------
  // Digits and decimal rendering
  // ---------------------------------------------------------------------

  predicate IsDigit(c: char) { '0' <= c <= '9' }

  predicate AllDigits(s: string) { forall i :: 0 <= i < |s| ==> IsDigit(s[i]) }

  /** A non-empty run of decimal digits (`/^\d+$/`). */
  predicate IsDigits(s: string) { |s| > 0 && AllDigits(s) }

  function DigitVal(c: char): nat
    requires IsDigit(c)
  {
    (c as int) - ('0' as int)
  }

  function DigitChar(d: nat): (c: char)
    requires d < 10
    ensures IsDigit(c) && DigitVal(c) == d
  {
    ((('0' as int) + d) as char)
  }

  /** Value of a digit string read most-significant digit first. */
  function DigitsValue(s: string): nat
    requires AllDigits(s)
  {
    if |s| == 0 then 0 else DigitsValue(s[..|s| - 1]) * 10 + DigitVal(s[|s| - 1])
  }

  /** `String(n)` for a non-negative integer: shortest decimal rendering. */
  function NatToString(n: nat): (r: string)
    ensures IsDigits(r)
    ensures DigitsValue(r) == n
    ensures r[0] == '0' ==> n == 0 && r == "0"
    ensures n < 10 <==> |r| == 1
  {
    if n < 10 then [DigitChar(n)]
    else
      var p := NatToString(n / 10);
      assert (p + [DigitChar(n % 10)])[..|p|] == p;
      p + [DigitChar(n % 10)]
  }

  lemma NatToStringInjective(a: nat, b: nat)
    ensures NatToString(a) == NatToString(b) <==> a == b
  {
  }

  /** `String(i)` for an integer. */
  function IntToString(i: int): (r: string)
    ensures |r| > 0
    ensures i >= 0 <==> r[0] != '-'
    ensures i >= 0 ==> r == NatToString(i)
    ensures i < 0 ==> r == "-" + NatToString(-i)
  {
    if i < 0 then "-" + NatToString(-i) else NatToString(i)
  }

  /** `String` of each number of a list. */
  function IntTexts(ns: seq<int>): (r: seq<string>)
    ensures |r| == |ns| && forall k :: 0 <= k < |ns| ==> r[k] == IntToString(ns[k])
  {
    if |ns| == 0 then [] else [IntToString(ns[0])] + IntTexts(ns[1..])
  }

  /** `String` of each number of a list that may hold NaN. */
  function NumTexts(xs: seq<Option<int>>): (r: seq<string>)
    ensures |r| == |xs| && forall k :: 0 <= k < |xs| ==> r[k] == NumText(xs[k])
  {
    if |xs| == 0 then [] else [NumText(xs[0])] + NumTexts(xs[1..])
  }

  /** Milliseconds in a day. */
  const DayMs: int := 86400000

  /** A numeric field as an API sends it: missing, a number or a numeric text. */
  datatype RawNumber = Undefined | Num(n: int) | Text(s: string)

  /** `Number(x) || 0`. */
  function NumberOrZero(x: RawNumber): (r: int)
    ensures x.Num? ==> r == x.n
    ensures x.Undefined? ==> r == 0
    ensures x.Text? ==> r == (if ToNumber(x.s).Some? then ToNumber(x.s).value else 0)
  {
    match x
    case Undefined => 0
    case Num(n) => n
    case Text(s) => var v := ToNumber(s); if v.Some? then v.value else 0
  }

  /** `String(x)` of a number that may be `NaN`. */
  function NumText(x: Option<int>): string
  {
    match x
    case None => "NaN"
    case Some(v) => IntToString(v)
  }

  /** JavaScript's `a % b` for a positive `b`: the remainder takes the sign of `a`. */
  function JsRem(a: int, b: int): (r: int)
    requires b > 0
    ensures a >= 0 ==> r == a % b
    ensures a < 0 ==> r == -((-a) % b)
    ensures -b < r < b
  {
    if a >= 0 then a % b else -((-a) % b)
  }

  /** The 12-hour clock face of an hour `0..23`: 0 and 12 read 12. */
  function Hour12(h: nat): nat
  {
    if h == 0 then 12 else if h > 12 then h - 12 else h
  }

  lemma Hour12Bounds(h: nat)
    requires h < 24
    ensures 1 <= Hour12(h) <= 12
    ensures Hour12(h) == if h % 12 == 0 then 12 else h % 12
  {
  }

  // ---------------------------------------------------------------------
  // padStart, trim, lower case, includes, startsWith
  // ---------------------------------------------------------------------

  function Repeat(c: char, n: nat): (r: string)
    ensures |r| == n
    ensures forall i :: 0 <= i < n ==> r[i] == c
  {
    if n == 0 then "" else [c] + Repeat(c, n - 1)
  }

  /** `s.padStart(n, c)` with a one-character fill. */
  function PadStart(s: string, n: nat, c: char): (r: string)
    ensures |r| == if |s| >= n then |s| else n
    ensures r[|r| - |s|..] == s
    ensures forall i :: 0 <= i < |r| - |s| ==> r[i] == c
  {
    if |s| >= n then s else Repeat(c, n - |s|) + s
  }

  /** `String(n).padStart(2, "0")`. */
  function Pad2(n: nat): (r: string)
    ensures n < 100 ==> |r| == 2 && AllDigits(r) && DigitsValue(r) == n
    ensures n >= 100 ==> r == NatToString(n)
  {
    var s := NatToString(n);
    if n < 10 then
      var r := "0" + s;
      assert r[..1] == "0";
      r
    else s
  }

  /** `Pad2` is `padStart(2, "0")` on the decimal text, also for numbers of three or more digits. */
  lemma Pad2IsPadStart(n: nat)
    ensures Pad2(n) == PadStart(NatToString(n), 2, '0')
  {
  }

  /** `Number` reads a padded number back, however many digits it has. */
  lemma ToNumberPad2(n: nat)
    ensures ToNumber(Pad2(n)) == Some(n as int)
  {
    if n < 100 { ParsePad2(n); } else { ParseNatToString(n); }
  }

  /**
   * JavaScript white space and line terminators: the ASCII ones (space and
   * tab, line feed, vertical tab, form feed, carriage return), no-break
   * space, the byte-order mark and the two Unicode line separators (the other
   * Unicode space separators are not listed).
   */
  predicate IsWs(c: char)
  {
    c == ' ' || '\t' <= c <= '\r' || c == '\U{A0}' || c == '\U{FEFF}' || '\U{2028}' <= c <= '\U{2029}'
  }

  function TrimStart(s: string): (r: string)
    ensures |r| <= |s| && r == s[|s| - |r|..]
    ensures |r| > 0 ==> !IsWs(r[0])
    ensures forall i :: 0 <= i < |s| - |r| ==> IsWs(s[i])
  {
    if |s| > 0 && IsWs(s[0]) then TrimStart(s[1..]) else s
  }

  function TrimEnd(s: string): (r: string)
    ensures |r| <= |s| && r == s[..|r|]
    ensures |r| > 0 ==> !IsWs(r[|r| - 1])
    ensures forall i :: |r| <= i < |s| ==> IsWs(s[i])
  {
    if |s| > 0 && IsWs(s[|s| - 1]) then TrimEnd(s[..|s| - 1]) else s
  }

  /** `s.trim()`. */
  function Trim(s: string): (r: string)
    ensures |r| <= |s|
    ensures |r| > 0 ==> !IsWs(r[0]) && !IsWs(r[|r| - 1])
  {
    TrimEnd(TrimStart(s))
  }

  predicate Blank(s: string) { Trim(s) == "" }

  lemma TrimNoWs(s: string)
    requires forall i :: 0 <= i < |s| ==> !IsWs(s[i])
    ensures Trim(s) == s
  {
  }

  lemma {:induction false} TrimStartAllWs(s: string)
    requires forall i :: 0 <= i < |s| ==> IsWs(s[i])
    ensures TrimStart(s) == ""
    decreases |s|
  {
    if |s| > 0 {
      TrimStartAllWs(s[1..]);
    }
  }

  lemma DigitsTrim(s: string)
    requires AllDigits(s)
    ensures Trim(s) == s
  {
    TrimNoWs(s);
  }

  lemma BlankIffAllWs(s: string)
    ensures Blank(s) <==> forall i :: 0 <= i < |s| ==> IsWs(s[i])
  {
    if forall i :: 0 <= i < |s| ==> IsWs(s[i]) {
      TrimStartAllWs(s);
    }
  }

  function LowerChar(c: char): char
  {
    if 'A' <= c <= 'Z' then ((c as int) + 32) as char else c
  }

  /** `s.toLowerCase()` on ASCII letters. */
  function ToLower(s: string): (r: string)
    ensures |r| == |s|
    ensures forall i :: 0 <= i < |s| ==> r[i] == LowerChar(s[i])
  {
    if |s| == 0 then "" else [LowerChar(s[0])] + ToLower(s[1..])
  }

  predicate StartsWith(s: string, p: string)
  {
    |p| <= |s| && s[..|p|] == p
  }

  /** `s.includes(sub)`: some position of `s` starts with `sub`. */
  predicate Contains(s: string, sub: string)
    decreases |s|
  {
    StartsWith(s, sub) || (|s| > 0 && Contains(s[1..], sub))
  }

  lemma {:induction false} ContainsAt(s: string, sub: string, k: nat)
    requires k + |sub| <= |s| && s[k..k + |sub|] == sub
    ensures Contains(s, sub)
    decreases k
  {
    if k > 0 {
      assert s[1..][k - 1..k - 1 + |sub|] == sub;
      ContainsAt(s[1..], sub, k - 1);
    }
  }

  lemma ContainsEmpty(s: string)
    ensures Contains(s, "")
  {
    assert s[..0] == "";
  }

  // ---------------------------------------------------------------------
  // filter
  // ---------------------------------------------------------------------

  /** `s.filter(p)`. */
  function Filter<T>(s: seq<T>, p: T -> bool): (r: seq<T>)
    ensures |r| <= |s|
    ensures forall k :: 0 <= k < |r| ==> p(r[k])
  {
    if |s| == 0 then [] else (if p(s[0]) then [s[0]] else []) + Filter(s[1..], p)
  }

  /** The filtered list holds exactly the elements that pass. */
  lemma {:induction false} FilterMembers<T>(s: seq<T>, p: T -> bool)
    ensures forall x :: x in Filter(s, p) <==> x in s && p(x)
  {
    if |s| > 0 {
      FilterMembers(s[1..], p);
      assert s == [s[0]] + s[1..];
    }
  }

  /** Filtering keeps the list when every element passes. */
  lemma {:induction false} FilterAll<T>(s: seq<T>, p: T -> bool)
    requires forall k :: 0 <= k < |s| ==> p(s[k])
    ensures Filter(s, p) == s
  {
    if |s| > 0 {
      FilterAll(s[1..], p);
      assert [s[0]] + s[1..] == s;
    }
  }

  /** One unfolding of `Filter`. */
  lemma FilterStep<T>(s: seq<T>, p: T -> bool)
    requires |s| > 0
    ensures Filter(s, p) == (if p(s[0]) then [s[0]] else []) + Filter(s[1..], p)
  {
  }

  /** Filtering a concatenation filters each part. */
  lemma {:induction false} FilterAppend<T>(s: seq<T>, t: seq<T>, p: T -> bool)
    ensures Filter(s + t, p) == Filter(s, p) + Filter(t, p)
  {
    if |s| == 0 {
      assert s + t == t;
    } else {
      assert (s + t)[1..] == s[1..] + t;
      FilterAppend(s[1..], t, p);
    }
  }

  /** Filtering yields nothing when no element passes. */
  lemma {:induction false} FilterNone<T>(s: seq<T>, p: T -> bool)
    requires forall k :: 0 <= k < |s| ==> !p(s[k])
    ensures Filter(s, p) == []
  {
    if |s| > 0 {
      FilterNone(s[1..], p);
    }
  }

  /** A filter and its complement split the list: nothing is lost or duplicated. */
  lemma {:induction false} FilterSplit<T>(s: seq<T>, p: T -> bool, q: T -> bool)
    requires forall k :: 0 <= k < |s| ==> q(s[k]) == !p(s[k])
    ensures multiset(Filter(s, p)) + multiset(Filter(s, q)) == multiset(s)
  {
    if |s| > 0 {
      var t := s[1..];
      assert forall k :: 0 <= k < |t| ==> t[k] == s[k + 1];
      FilterSplit(t, p, q);
      assert s == [s[0]] + t;
      var a := if p(s[0]) then [s[0]] else [];
      var b := if q(s[0]) then [s[0]] else [];
      FilterStep(s, p);
      FilterStep(s, q);
      assert multiset(a) + multiset(b) == multiset{s[0]};
    }
  }

  /** A filter is empty exactly when no element passes. */
  lemma FilterEmpty<T>(s: seq<T>, p: T -> bool)
    ensures Filter(s, p) == [] <==> forall k :: 0 <= k < |s| ==> !p(s[k])
  {
    FilterMembers(s, p);
    if forall k :: 0 <= k < |s| ==> !p(s[k]) {
      FilterNone(s, p);
    } else {
      var k :| 0 <= k < |s| && p(s[k]);
      assert s[k] in Filter(s, p);
    }
  }

  /** `s.findIndex(p)`, with `None` for -1. */
  function FindFirst<T>(s: seq<T>, p: T -> bool): (r: Option<nat>)
    ensures r.Some? ==> r.value < |s| && p(s[r.value]) && forall j :: 0 <= j < r.value ==> !p(s[j])
    ensures r.None? ==> forall j :: 0 <= j < |s| ==> !p(s[j])
  {
    if |s| == 0 then None
    else if p(s[0]) then Some(0)
    else
      match FindFirst(s[1..], p)
      case None => None
      case Some(i) => Some(i + 1)
  }

  /** The first index where `p` holds is the one `findIndex` returns. */
  lemma FindFirstAt<T>(s: seq<T>, p: T -> bool, i: nat)
    requires i < |s| && p(s[i]) && forall j :: 0 <= j < i ==> !p(s[j])
    ensures FindFirst(s, p) == Some(i)
  {
  }

  /** Each number wrapped as a value that is not NaN. */
  function MapSome(xs: seq<int>): (r: seq<Option<int>>)
    ensures |r| == |xs|
    ensures forall k :: 0 <= k < |xs| ==> r[k] == Some(xs[k])
  {
    if |xs| == 0 then [] else [Some(xs[0])] + MapSome(xs[1..])
  }

  /** Two filters in a row are one filter by the conjunction. */
  lemma {:induction false} FilterFilter<T>(s: seq<T>, p: T -> bool, q: T -> bool, both: T -> bool)
    requires forall x :: both(x) == (p(x) && q(x))
    ensures Filter(Filter(s, p), q) == Filter(s, both)
  {
    if |s| > 0 {
      FilterFilter(s[1..], p, q, both);
      var head := if p(s[0]) then [s[0]] else [];
      assert Filter(s, p) == head + Filter(s[1..], p);
      if p(s[0]) {
        assert Filter(s, p)[1..] == Filter(s[1..], p);
      } else {
        assert Filter(s, p) == Filter(s[1..], p);
      }
    }
  }

  // ---------------------------------------------------------------------
  // split and join
  // ---------------------------------------------------------------------

  /** `s.split(sep)` for a non-empty separator: leftmost non-overlapping occurrences. */
  function Split(s: string, sep: string): (r: seq<string>)
    requires |sep| > 0
    ensures |r| >= 1
    decreases |s|
  {
    if |s| < |sep| then [s]
    else if s[..|sep|] == sep then [""] + Split(s[|sep|..], sep)
    else
      var rest := Split(s[1..], sep);
      [[s[0]] + rest[0]] + rest[1..]
  }

  /** `parts.join(sep)`. */
  lemma ConcatAssoc(x: string, y: string, z: string)
    ensures x + y + z == x + (y + z)
  {
  }

  function Join(parts: seq<string>, sep: string): string
  {
    if |parts| == 0 then ""
    else if |parts| == 1 then parts[0]
    else parts[0] + sep + Join(parts[1..], sep)
  }

  lemma JoinPair(x: string, y: string, sep: string)
    ensures Join([x, y], sep) == x + sep + y
  {
    assert [x, y][1..] == [y];
  }

  lemma JoinCons(p: string, rest: seq<string>, sep: string)
    requires |rest| >= 1
    ensures Join([p] + rest, sep) == p + sep + Join(rest, sep)
  {
    assert ([p] + rest)[1..] == rest;
  }

  lemma JoinConsHead(c: char, rest: seq<string>, sep: string)
    requires |rest| >= 1
    ensures Join([[c] + rest[0]] + rest[1..], sep) == [c] + Join(rest, sep)
  {
    var r := [[c] + rest[0]] + rest[1..];
    assert r[1..] == rest[1..];
    if |rest| > 1 {
      assert Join(rest, sep) == rest[0] + sep + Join(rest[1..], sep);
    }
  }

  lemma {:induction false} JoinSplit(s: string, sep: string)
    requires |sep| > 0
    ensures Join(Split(s, sep), sep) == s
    decreases |s|
  {
    if |s| < |sep| {
      assert Split(s, sep) == [s];
    } else if s[..|sep|] == sep {
      var rest := Split(s[|sep|..], sep);
      assert Split(s, sep) == [""] + rest;
      JoinSplit(s[|sep|..], sep);
      JoinCons("", rest, sep);
      assert s == s[..|sep|] + s[|sep|..];
    } else {
      var rest := Split(s[1..], sep);
      assert Split(s, sep) == [[s[0]] + rest[0]] + rest[1..];
      JoinSplit(s[1..], sep);
      JoinConsHead(s[0], rest, sep);
      assert s == [s[0]] + s[1..];
    }
  }

  predicate NoChar(s: string, c: char) { forall i :: 0 <= i < |s| ==> s[i] != c }

  /** Splitting on a character that does not occur yields the whole string. */
  lemma {:induction false} SplitNoSep(s: string, c: char)
    requires NoChar(s, c)
    ensures Split(s, [c]) == [s]
    decreases |s|
  {
    if |s| >= 1 {
      assert s[..1] != [c] by { assert s[..1][0] == s[0]; }
      SplitNoSep(s[1..], c);
      assert [s[0]] + s[1..] == s;
    }
  }

  /** The first piece of `split(c)` is everything before the first `c`. */
  lemma {:induction false} SplitAtFirst(a: string, c: char, b: string)
    requires NoChar(a, c)
    ensures Split(a + [c] + b, [c]) == [a] + Split(b, [c])
    decreases |a|
  {
    var s := a + [c] + b;
    if |a| == 0 {
      assert s[..1] == [c];
      assert s[1..] == b;
    } else {
      assert s[..1] != [c] by { assert s[..1][0] == a[0]; }
      assert s[1..] == a[1..] + [c] + b;
      SplitAtFirst(a[1..], c, b);
      assert [s[0]] + a[1..] == a;
    }
  }

  lemma NoCharAppend(a: string, b: string, c: char)
    requires NoChar(a, c) && NoChar(b, c)
    ensures NoChar(a + b, c)
  {
    forall i | 0 <= i < |a + b| ensures (a + b)[i] != c {
      if i < |a| { assert (a + b)[i] == a[i]; } else { assert (a + b)[i] == b[i - |a|]; }
    }
  }

  lemma DigitsNoChar(s: string, c: char)
    requires AllDigits(s) && !IsDigit(c)
    ensures NoChar(s, c)
  {
    forall i | 0 <= i < |s| ensures s[i] != c { assert IsDigit(s[i]); }
  }

  /** Two pieces free of `c` joined by `c` split back into the two. */
  lemma SplitPair(a: string, b: string, c: char)
    requires NoChar(a, c) && NoChar(b, c)
    ensures Split(a + [c] + b, [c]) == [a, b]
  {
    SplitAtFirst(a, c, b);
    SplitNoSep(b, c);
  }

  /** `s.split(c)` for a single-character separator never yields a piece containing `c`. */
  lemma {:induction false} SplitPiecesNoSep(s: string, c: char)
    ensures forall k :: 0 <= k < |Split(s, [c])| ==> NoChar(Split(s, [c])[k], c)
    decreases |s|
  {
    if |s| >= 1 {
      SplitPiecesNoSep(s[1..], c);
      if s[..1] == [c] {
        assert s[0] == c by { assert s[..1][0] == s[0]; }
        assert s[1..] == s[|[c]|..];
      } else {
        assert s[0] != c by { assert s[..1][0] == s[0]; }
      }
    }
  }

  /** A character absent from the string is absent from every piece of a split. */
  lemma {:induction false} SplitKeepsNoChar(s: string, c: char, d: char)
    requires NoChar(s, d)
    ensures forall k :: 0 <= k < |Split(s, [c])| ==> NoChar(Split(s, [c])[k], d)
    decreases |s|
  {
    if |s| >= 1 {
      SplitKeepsNoChar(s[1..], c, d);
      if s[..1] == [c] {
        assert s[1..] == s[|[c]|..];
      } else {
        var rest := Split(s[1..], [c]);
        assert NoChar([s[0]] + rest[0], d) by {
          forall i | 0 <= i < |[s[0]] + rest[0]| ensures ([s[0]] + rest[0])[i] != d {
            if i > 0 { assert ([s[0]] + rest[0])[i] == rest[0][i - 1]; }
          }
        }
      }
    }
  }

  /** Joining pieces free of `c` with `c` and splitting on `c` again gives the pieces back. */
  lemma {:induction false} SplitJoin(parts: seq<string>, c: char)
    requires |parts| >= 1
    requires forall k :: 0 <= k < |parts| ==> NoChar(parts[k], c)
    ensures Split(Join(parts, [c]), [c]) == parts
    decreases |parts|
  {
    if |parts| == 1 {
      SplitNoSep(parts[0], c);
    } else {
      var rest := parts[1..];
      assert Join(parts, [c]) == parts[0] + [c] + Join(rest, [c]);
      SplitAtFirst(parts[0], c, Join(rest, [c]));
      SplitJoin(rest, c);
      assert [parts[0]] + rest == parts;
    }
  }

  /** Joining non-empty pieces free of `c` with `c` loses nothing: different pieces give different strings. */
  lemma JoinInjective(ps: seq<string>, qs: seq<string>, c: char)
    requires forall k :: 0 <= k < |ps| ==> |ps[k]| > 0 && NoChar(ps[k], c)
    requires forall k :: 0 <= k < |qs| ==> |qs[k]| > 0 && NoChar(qs[k], c)
    ensures Join(ps, [c]) == Join(qs, [c]) <==> ps == qs
  {
    if Join(ps, [c]) == Join(qs, [c]) {
      if |ps| == 0 || |qs| == 0 {
        JoinNonEmpty(ps, c);
        JoinNonEmpty(qs, c);
      } else {
        SplitJoin(ps, c);
        SplitJoin(qs, c);
      }
    }
  }

  lemma JoinNonEmpty(ps: seq<string>, c: char)
    requires forall k :: 0 <= k < |ps| ==> |ps[k]| > 0
    ensures |Join(ps, [c])| == 0 <==> |ps| == 0
  {
    if |ps| > 1 {
      assert |Join(ps, [c])| >= |ps[0]|;
    }
  }

  /** The text before the first `c` is determined by the string. */
  lemma FirstFieldUnique(a: string, b: string, a': string, b': string, c: char)
    requires NoChar(a, c) && NoChar(a', c)
    requires a + [c] + b == a' + [c] + b'
    ensures a == a' && b == b'
  {
    SplitAtFirst(a, c, b);
    SplitAtFirst(a', c, b');
    var s := a + [c] + b;
    assert a == Split(s, [c])[0] == a';
    assert s[|a| + 1..] == b;
    assert s[|a'| + 1..] == b';
  }

  // ---------------------------------------------------------------------
  // Splitting on a run of separator characters
  // ---------------------------------------------------------------------

  predicate Free(s: string, sep: char -> bool)
  {
    forall i :: 0 <= i < |s| ==> !sep(s[i])
  }

  /** The longest prefix free of separators. */
  function Word(s: string, sep: char -> bool): (w: string)
    ensures |w| <= |s| && w == s[..|w|] && Free(w, sep)
    ensures |w| < |s| ==> sep(s[|w|])
  {
    if |s| == 0 || sep(s[0]) then ""
    else
      var w := Word(s[1..], sep);
      assert [s[0]] + w == s[..|w| + 1];
      [s[0]] + w
  }

  /**
   * The maximal runs of non-separator characters: `s.split(/[...]+/)` with
   * the empty pieces a leading or trailing separator run produces removed.
   */
  function Tokens(s: string, sep: char -> bool): (r: seq<string>)
    ensures forall k :: 0 <= k < |r| ==> |r[k]| > 0 && Free(r[k], sep)
    decreases |s|
  {
    if |s| == 0 then []
    else if sep(s[0]) then Tokens(s[1..], sep)
    else
      var w := Word(s, sep);
      [w] + Tokens(s[|w|..], sep)
  }

  /** When white space separates tokens, trimming a token changes nothing. */
  lemma TokensTrimmed(s: string, sep: char -> bool)
    requires forall c :: IsWs(c) ==> sep(c)
    ensures forall k :: 0 <= k < |Tokens(s, sep)| ==> Trim(Tokens(s, sep)[k]) == Tokens(s, sep)[k]
  {
    forall k | 0 <= k < |Tokens(s, sep)| ensures Trim(Tokens(s, sep)[k]) == Tokens(s, sep)[k] {
      var t := Tokens(s, sep)[k];
      assert forall i :: 0 <= i < |t| ==> !sep(t[i]);
      TrimNoWs(t);
    }
  }

  // ---------------------------------------------------------------------
  // parseInt and Number
  // ---------------------------------------------------------------------

  function DigitPrefix(s: string): (r: string)
    ensures |r| <= |s| && AllDigits(r) && r == s[..|r|]
    ensures |r| < |s| ==> !IsDigit(s[|r|])
  {
    if |s| > 0 && IsDigit(s[0]) then
      var t := DigitPrefix(s[1..]);
      assert ([s[0]] + t) == s[..|t| + 1];
      [s[0]] + t
    else ""
  }

  /** Splits off an optional leading `+` or `-`. */
  function SignSplit(s: string): (bool, string)
  {
    if |s| > 0 && (s[0] == '-' || s[0] == '+') then (s[0] == '-', s[1..]) else (false, s)
  }

  function Signed(neg: bool, n: nat): int { if neg then -(n as int) else n as int }

  /**
   * `parseInt(s, 10)`: skips leading whitespace, reads an optional sign and the
   * longest digit prefix; `None` (NaN) when there is no digit.
   */
  function ParseInt(s: string): (r: Option<int>)
  {
    var (neg, u) := SignSplit(TrimStart(s));
    var d := DigitPrefix(u);
    if |d| == 0 then None else Some(Signed(neg, DigitsValue(d)))
  }

  /**
   * `Number(s)` on a string: surrounding whitespace is ignored, the empty
   * string is 0, otherwise an optional sign and digits and nothing else.
   */
  function ToNumber(s: string): (r: Option<int>)
  {
    var t := Trim(s);
    if t == "" then Some(0)
    else
      var (neg, u) := SignSplit(t);
      if IsDigits(u) then Some(Signed(neg, DigitsValue(u))) else None
  }

  lemma DigitPrefixAll(s: string)
    requires AllDigits(s)
    ensures DigitPrefix(s) == s
  {
  }

  /** On a plain digit string `parseInt` and `Number` agree with the decimal value. */
  lemma ParseDigits(s: string)
    requires IsDigits(s)
    ensures ParseInt(s) == Some(DigitsValue(s) as int)
    ensures ToNumber(s) == Some(DigitsValue(s) as int)
  {
    TrimNoWs(s);
    DigitPrefixAll(s);
    assert !IsWs(s[0]);
  }

  /** `String(n)` is read back by both `parseInt` and `Number`. */
  lemma ParsePad2(n: nat)
    requires n < 100
    ensures ParseInt(Pad2(n)) == Some(n as int)
    ensures ToNumber(Pad2(n)) == Some(n as int)
  {
    ParseDigits(Pad2(n));
  }

  lemma ParseNatToString(n: nat)
    ensures ParseInt(NatToString(n)) == Some(n as int)
    ensures ToNumber(NatToString(n)) == Some(n as int)
  {
    ParseDigits(NatToString(n));
  }

  lemma {:induction false} DigitPrefixOf(d: string, junk: string)
    requires AllDigits(d)
    requires |junk| > 0 && !IsDigit(junk[0])
    ensures DigitPrefix(d + junk) == d
    decreases |d|
  {
    if |d| == 0 {
      assert d + junk == junk;
    } else {
      assert (d + junk)[1..] == d[1..] + junk;
      DigitPrefixOf(d[1..], junk);
      assert [d[0]] + d[1..] == d;
    }
  }

  /** `parseInt` reads a prefix only, so trailing junk is ignored: `parseInt("12abc")` is 12. */
  lemma ParseIntIgnoresSuffix(d: string, junk: string)
    requires IsDigits(d)
    requires |junk| > 0 && !IsDigit(junk[0])
    ensures ParseInt(d + junk) == Some(DigitsValue(d) as int)
  {
    var s := d + junk;
    assert s[0] == d[0];
    TrimStartKeeps(s);
    DigitPrefixOf(d, junk);
    ParseIntUnsigned(s);
  }

  /** A text that starts with no whitespace is its own `TrimStart`. */
  lemma TrimStartKeeps(s: string)
    requires |s| > 0 && !IsWs(s[0])
    ensures TrimStart(s) == s
  {
  }

  /** `parseInt` of a text starting with a digit is the value of its digit prefix. */
  lemma ParseIntUnsigned(s: string)
    requires TrimStart(s) == s && |s| > 0 && IsDigit(s[0])
    ensures ParseInt(s) == Some(DigitsValue(DigitPrefix(s)) as int)
  {
    assert SignSplit(s) == (false, s);
    var d := DigitPrefix(s);
    assert d == [s[0]] + DigitPrefix(s[1..]);
    assert ParseInt(s) == Some(Signed(false, DigitsValue(d)));
  }
}
