/** Helpers shared by the backend and the frontend models: optional values and
    handler replies, JavaScript's String.prototype.trim and Array.prototype.join,
    decimal digit strings, and an insertion sort by an integer key. */
module Common {

  datatype Option<T> = None | Some(value: T)

  /** What an Express handler sends back: 200 with a body, 400 with a message,
      or 500 carrying an error text that comes from outside the model. */
  datatype Reply<T> = Ok(body: T) | BadRequest(message: string) | ServerError

  /** `!v` for an optional string field: absent or the empty string. */
  predicate Falsy(v: Option<string>) {
    v.None? || v.value == ""
  }

  /** JavaScript's `a || b` on two optional string fields. */
  function OrElse(a: Option<string>, b: Option<string>): (r: Option<string>)
    ensures !Falsy(a) ==> r == a
    ensures Falsy(a) ==> r == b
  {
    if Falsy(a) then b else a
  }

  // ---------------------------------------------------------------------------
  // Whitespace and trim
  // ---------------------------------------------------------------------------

  /** The characters String.prototype.trim removes: WhiteSpace and LineTerminator
      of ECMA-262 (TAB, VT, FF, SP, NBSP, ZWNBSP, the Zs category, LF, CR, LS, PS). */
  predicate IsJsWhitespace(c: char) {
    var n := c as int;
    n == 0x09 || n == 0x0A || n == 0x0B || n == 0x0C || n == 0x0D || n == 0x20 ||
    n == 0xA0 || n == 0x1680 || (0x2000 <= n <= 0x200A) || n == 0x2028 || n == 0x2029 ||
    n == 0x202F || n == 0x205F || n == 0x3000 || n == 0xFEFF
  }

  ghost predicate AllWhitespace(s: string) {
    forall i :: 0 <= i < |s| ==> IsJsWhitespace(s[i])
  }

  /** Number of whitespace characters at the start of `s`. */
  function LeadingSpace(s: string): (k: nat)
    ensures k <= |s|
    ensures forall i :: 0 <= i < k ==> IsJsWhitespace(s[i])
    ensures k < |s| ==> !IsJsWhitespace(s[k])
  {
    if s != [] && IsJsWhitespace(s[0]) then 1 + LeadingSpace(s[1..]) else 0
  }

  /** Number of whitespace characters at the end of `s`. */
  function TrailingSpace(s: string): (k: nat)
    ensures k <= |s|
    ensures forall i :: |s| - k <= i < |s| ==> IsJsWhitespace(s[i])
    ensures k < |s| ==> !IsJsWhitespace(s[|s| - 1 - k])
  {
    if s != [] && IsJsWhitespace(s[|s| - 1]) then 1 + TrailingSpace(s[..|s| - 1]) else 0
  }

  /** String.prototype.trim: the longest infix of `s` that neither starts nor
      ends with whitespace, or "" when `s` is whitespace only. */
  function Trim(s: string): (r: string)
    ensures |r| <= |s|
    ensures r == [] <==> AllWhitespace(s)
    ensures r != [] ==> !IsJsWhitespace(r[0]) && !IsJsWhitespace(r[|r| - 1])
    ensures exists a, b :: 0 <= a <= b <= |s| && r == s[a..b] &&
              AllWhitespace(s[..a]) && AllWhitespace(s[b..])
  {
    var a := LeadingSpace(s);
    var b := TrailingSpace(s[a..]);
    TrimPrefixSpace(s, a, b);
    TrimSuffixSpace(s, a, b);
    TrimEmptyIff(s, a, b);
    TrimEdges(s, a, b);
    s[a..|s| - b]
  }

  lemma TrimPrefixSpace(s: string, a: nat, b: nat)
    requires a == LeadingSpace(s) && b == TrailingSpace(s[a..])
    ensures a <= |s| - b
    ensures AllWhitespace(s[..a])
  {}
  lemma {:induction false} TrimSuffixSpace(s: string, a: nat, b: nat)
    requires a == LeadingSpace(s) && b == TrailingSpace(s[a..])
    ensures AllWhitespace(s[|s| - b..])
  {
    var rest := s[a..];
    var tail := s[|s| - b..];
    assert tail == rest[|rest| - b..];
  }
  lemma {:induction false} TrimEmptyIff(s: string, a: nat, b: nat)
    requires a == LeadingSpace(s) && b == TrailingSpace(s[a..])
    ensures s[a..|s| - b] == [] <==> AllWhitespace(s)
  {
    var rest := s[a..];
    var tail := s[|s| - b..];
    assert tail == rest[|rest| - b..];
    if a == |s| - b {
      assert s == s[..a] + tail;
    }
  }
  lemma {:induction false} TrimEdges(s: string, a: nat, b: nat)
    requires a == LeadingSpace(s) && b == TrailingSpace(s[a..])
    ensures a < |s| - b ==> !IsJsWhitespace(s[a]) && !IsJsWhitespace(s[|s| - b - 1])
  {
    if a < |s| - b {
      LeadingEdge(s);
      TrailingEdge(s[a..]);
      assert s[a..][|s| - a - 1 - b] == s[|s| - b - 1];
    }
  }
  lemma LeadingEdge(t: string)
    requires LeadingSpace(t) < |t|
    ensures !IsJsWhitespace(t[LeadingSpace(t)])
  {}
  lemma TrailingEdge(t: string)
    requires TrailingSpace(t) < |t|
    ensures !IsJsWhitespace(t[|t| - 1 - TrailingSpace(t)])
  {}

  lemma {:induction false} TrimIdempotent(s: string)
    ensures Trim(Trim(s)) == Trim(s)
  {
    var t := Trim(s);
    if t != [] {
      assert LeadingSpace(t) == 0;
      assert TrailingSpace(t) == 0;
      assert t[0..][..|t| - 0] == t;
    }
  }

  // ---------------------------------------------------------------------------
  // Decimal digits
  // ---------------------------------------------------------------------------

  predicate IsDigit(c: char) {
    '0' <= c <= '9'
  }

  predicate AllDigits(s: string) {
    forall i :: 0 <= i < |s| ==> IsDigit(s[i])
  }

  function DigitValue(c: char): nat
    requires IsDigit(c)
  {
    (c as int) - ('0' as int)
  }

  function DigitChar(d: nat): (c: char)
    requires d < 10
    ensures IsDigit(c) && DigitValue(c) == d
  {
    (('0' as int) + d) as char
  }

  function Pow10(n: nat): nat
  {
    if n == 0 then 1 else 10 * Pow10(n - 1)
  }

  /** The number a string of decimal digits denotes (leading zeros allowed). */
  function DigitsValue(s: string): nat
    requires AllDigits(s)
  {
    if s == [] then 0 else DigitsValue(s[..|s| - 1]) * 10 + DigitValue(s[|s| - 1])
  }

  lemma {:induction false} DigitsValueBound(s: string)
    requires AllDigits(s)
    ensures DigitsValue(s) < Pow10(|s|)
  {
    if s != [] {
      DigitsValueBound(s[..|s| - 1]);
    }
  }

  /** The last `width` decimal digits of `n`, zero-padded on the left. */
  function Pad(n: nat, width: nat): (s: string)
    ensures |s| == width && AllDigits(s)
  {
    if width == 0 then "" else Pad(n / 10, width - 1) + [DigitChar(n % 10)]
  }

  lemma {:induction false} PadValue(n: nat, width: nat)
    requires n < Pow10(width)
    ensures DigitsValue(Pad(n, width)) == n
  {
    if width > 0 {
      PadValue(n / 10, width - 1);
      var s := Pad(n, width);
      assert s[..|s| - 1] == Pad(n / 10, width - 1);
    }
  }

  lemma {:induction false} PadOfValue(s: string)
    requires AllDigits(s)
    ensures Pad(DigitsValue(s), |s|) == s
  {
    if s != [] {
      var init := s[..|s| - 1];
      PadOfValue(init);
      assert DigitsValue(s) / 10 == DigitsValue(init);
      assert DigitsValue(s) % 10 == DigitValue(s[|s| - 1]);
      assert DigitChar(DigitValue(s[|s| - 1])) == s[|s| - 1];
      assert s == init + [s[|s| - 1]];
    }
  }

  /** The shape `^\d{4}-\d{2}-\d{2}$`: four digits, '-', two digits, '-', two digits,
      nothing before or after. Month and day ranges are not checked. */
  predicate IsDateText(s: string) {
    |s| == 10 && AllDigits(s[..4]) && s[4] == '-' && AllDigits(s[5..7]) && s[7] == '-' &&
    AllDigits(s[8..])
  }

  /** The shape `^\d+$`: one or more decimal digits. */
  predicate IsDigitText(s: string) {
    |s| >= 1 && AllDigits(s)
  }

  /** Decimal text of a natural number, as JavaScript's template literals give it. */
  function NatToString(n: nat): (s: string)
    ensures |s| >= 1 && AllDigits(s)
  {
    if n < 10 then [DigitChar(n)] else NatToString(n / 10) + [DigitChar(n % 10)]
  }

  lemma {:induction false} NatToStringValue(n: nat)
    ensures DigitsValue(NatToString(n)) == n
    ensures NatToString(n)[0] == '0' <==> n == 0
  {
    if n >= 10 {
      NatToStringValue(n / 10);
      var s := NatToString(n);
      assert s[..|s| - 1] == NatToString(n / 10);
      assert s[0] == NatToString(n / 10)[0];
    }
  }

  // ---------------------------------------------------------------------------
  // Array.prototype.join
  // ---------------------------------------------------------------------------

  /** `parts.join(sep)`: "" for no parts, the parts with `sep` between neighbours. */
  function Join(parts: seq<string>, sep: string): string
  {
    if |parts| == 0 then ""
    else if |parts| == 1 then parts[0]
    else Join(parts[..|parts| - 1], sep) + sep + parts[|parts| - 1]
  }

  function TotalLength(parts: seq<string>): nat
  {
    if parts == [] then 0 else TotalLength(parts[..|parts| - 1]) + |parts[|parts| - 1]|
  }

  /** The joined text's length: the parts' lengths plus one separator per neighbouring pair. */
  lemma {:induction false} JoinLength(parts: seq<string>, sep: string)
    requires |parts| >= 1
    ensures |Join(parts, sep)| == TotalLength(parts) + (|parts| - 1) * |sep|
  {
    if |parts| > 1 {
      JoinLength(parts[..|parts| - 1], sep);
      assert TotalLength(parts[..|parts| - 1][..|parts| - 2]) == TotalLength(parts[..|parts| - 2]) by {
        assert parts[..|parts| - 1][..|parts| - 2] == parts[..|parts| - 2];
      }
    } else {
      assert parts[..0] == [];
    }
  }

  /** Joining two or more parts is the first part, the separator, and the join
      of the rest. */
  lemma JoinFirst(parts: seq<string>, sep: string)
    requires |parts| >= 2
    ensures Join(parts, sep) == parts[0] + sep + Join(parts[1..], sep)
  {
    JoinConcat([parts[0]], parts[1..], sep);
    assert [parts[0]] + parts[1..] == parts;
  }

    /** Joining two non-empty lists is joining each and gluing them with one separator. */
  lemma {:induction false} JoinConcat(a: seq<string>, b: seq<string>, sep: string)
    requires |a| >= 1 && |b| >= 1
    ensures Join(a + b, sep) == Join(a, sep) + sep + Join(b, sep)
  {
    if |b| == 1 {
      assert (a + b)[..|a + b| - 1] == a;
    } else {
      var b' := b[..|b| - 1];
      JoinConcat(a, b', sep);
      assert (a + b)[..|a + b| - 1] == a + b';
    }
  }

  // ---------------------------------------------------------------------------
  // Searching and filtering (Array.prototype.find / filter, MongoDB's find)
  // ---------------------------------------------------------------------------

  /** Position of the first element satisfying `p`, if any. */
  function FirstIndex<T>(s: seq<T>, p: T -> bool): (r: Option<nat>)
    ensures r.Some? ==> r.value < |s| && p(s[r.value])
    ensures r.Some? ==> forall k :: 0 <= k < r.value ==> !p(s[k])
    ensures r.None? ==> forall k :: 0 <= k < |s| ==> !p(s[k])
  {
    if s == [] then None
    else if p(s[0]) then Some(0)
    else match FirstIndex(s[1..], p)
      case None => None
      case Some(i) => Some(i + 1)
  }

  /** The elements satisfying `p`, in their original order. */
  function Filter<T>(s: seq<T>, p: T -> bool): (r: seq<T>)
    ensures |r| <= |s|
    ensures forall i :: 0 <= i < |r| ==> r[i] in s && p(r[i])
    ensures forall i :: 0 <= i < |s| && p(s[i]) ==> s[i] in r
  {
    if s == [] then [] else (if p(s[0]) then [s[0]] else []) + Filter(s[1..], p)
  }

  ghost predicate NoRepeats<T>(s: seq<T>) {
    forall i, j :: 0 <= i < j < |s| ==> s[i] != s[j]
  }

  lemma {:induction false} FilterNoRepeats<T>(s: seq<T>, p: T -> bool)
    requires NoRepeats(s)
    ensures NoRepeats(Filter(s, p))
  {
    if s != [] {
      FilterNoRepeats(s[1..], p);
      var rest := Filter(s[1..], p);
      if p(s[0]) {
        assert s[0] !in rest by {
          assert s[0] !in s[1..];
        }
        assert Filter(s, p) == [s[0]] + rest;
      } else {
        assert Filter(s, p) == rest;
      }
    }
  }

  // ---------------------------------------------------------------------------
  // Insertion sort by an integer key
  // ---------------------------------------------------------------------------

  ghost predicate SortedBy<T>(s: seq<T>, key: T -> int) {
    forall i, j :: 0 <= i < j < |s| ==> key(s[i]) <= key(s[j])
  }

  function InsertBy<T>(x: T, s: seq<T>, key: T -> int): (r: seq<T>)
    requires SortedBy(s, key)
    ensures SortedBy(r, key)
    ensures multiset(r) == multiset(s) + multiset{x}
    ensures |r| == |s| + 1
  {
    if s == [] then [x]
    else if key(x) <= key(s[0]) then [x] + s
    else
      var rest := InsertBy(x, s[1..], key);
      InsertStep(x, s, rest, key);
      [s[0]] + rest
  }

  lemma InsertStep<T>(x: T, s: seq<T>, rest: seq<T>, key: T -> int)
    requires s != [] && SortedBy(s, key) && key(s[0]) < key(x)
    requires SortedBy(rest, key) && multiset(rest) == multiset(s[1..]) + multiset{x}
    ensures SortedBy([s[0]] + rest, key)
    ensures multiset([s[0]] + rest) == multiset(s) + multiset{x}
  {
    assert s == [s[0]] + s[1..];
    forall y | y in multiset(rest) ensures key(s[0]) <= key(y) {
      assert y == x || y in multiset(s[1..]);
    }
    forall j | 0 <= j < |rest| ensures key(s[0]) <= key(rest[j]) {
      assert rest[j] in multiset(rest);
    }
  }

  /** Insertion sort by ascending key. */
  function SortBy<T>(s: seq<T>, key: T -> int): (r: seq<T>)
    ensures SortedBy(r, key)
    ensures multiset(r) == multiset(s)
    ensures |r| == |s|
  {
    if s == [] then []
    else
      assert s == [s[0]] + s[1..];
      InsertBy(s[0], SortBy(s[1..], key), key)
  }

  /** A permutation of a list without repeated elements has none either. */
  lemma NoRepeatsPermutation<T>(a: seq<T>, b: seq<T>)
    requires multiset(a) == multiset(b) && NoRepeats(a)
    ensures NoRepeats(b)
  {
    forall i, j | 0 <= i < j < |b| ensures b[i] != b[j] {
      if b[i] == b[j] {
        var x := b[i];
        assert b == b[..i] + [b[i]] + b[i + 1..j] + [b[j]] + b[j + 1..];
        assert multiset(b)[x] >= 2;
        MultiplicityAtMostOne(a, x);
        assert false;
      }
    }
  }

  lemma {:induction false} MultiplicityAtMostOne<T>(a: seq<T>, x: T)
    requires NoRepeats(a)
    ensures multiset(a)[x] <= 1
  {
    if a != [] {
      MultiplicityAtMostOne(a[1..], x);
      assert a == [a[0]] + a[1..];
      if a[0] == x {
        assert x !in a[1..];
      }
    }
  }
}
