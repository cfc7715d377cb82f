/** Shared vocabulary: optional values, order-preserving filtering, and the
    string helpers the pages use for their search boxes. */
module Common {

  datatype Option<T> = None | Some(value: T)

  /** `o || d` / `o ?? d`: the value if present, else the default. */
  function OrElse<T>(o: Option<T>, d: T): T
  {
    if o.Some? then o.value else d
  }

  /** `error.response?.data?.message || fallback`: the server's message when
      it is present and non-empty, otherwise the component's fallback text. */
  function FailureMessage(message: Option<string>, fallback: string): (m: string)
    ensures message.Some? && message.value != "" ==> m == message.value
    ensures message.None? || message.value == "" ==> m == fallback
  {
    if message.Some? && message.value != "" then message.value else fallback
  }

  /** The logged-in user as the client holds it. */
  datatype User = User(id: int, name: string, role: string)

  /** A response body as the client sees it: null or absent, an array, or an
      object of which only the `data` field matters (`JNull` when it has none). */
  datatype Json<T> = JNull | JArray(elems: seq<T>) | JObject(data: Json<T>)

  /** `j?.data`: the `data` field of an object; absent for anything else. */
  function DataField<T>(j: Json<T>): Json<T>
  {
    if j.JObject? then j.data else JNull
  }

  /** `Array.prototype.filter`: keeps the elements that satisfy `p`, in order. */
  function Filter<T>(s: seq<T>, p: T -> bool): (r: seq<T>)
    ensures |r| <= |s|
  {
    if s == [] then []
    else (if p(s[0]) then [s[0]] else []) + Filter(s[1..], p)
  }

  /** `a` can be obtained from `b` by deleting elements (order is kept). */
  predicate IsSubsequence<T(==)>(a: seq<T>, b: seq<T>)
    decreases |b|
  {
    if b == [] then a == []
    else IsSubsequence(a, b[1..]) || (a != [] && a[0] == b[0] && IsSubsequence(a[1..], b[1..]))
  }

  lemma {:induction false} SubsequenceRefl<T>(s: seq<T>)
    ensures IsSubsequence(s, s)
  {
    if s != [] {
      SubsequenceRefl(s[1..]);
    }
  }

  lemma {:induction false} SubsequenceTrans<T>(a: seq<T>, b: seq<T>, c: seq<T>)
    requires IsSubsequence(a, b) && IsSubsequence(b, c)
    ensures IsSubsequence(a, c)
    decreases |c|
  {
    if c != [] {
      if IsSubsequence(b, c[1..]) {
        SubsequenceTrans(a, b, c[1..]);
      } else if IsSubsequence(a, b[1..]) {
        SubsequenceTrans(a, b[1..], c[1..]);
      } else {
        SubsequenceTrans(a[1..], b[1..], c[1..]);
      }
    }
  }

  lemma {:induction false} FilterMembers<T>(s: seq<T>, p: T -> bool, x: T)
    ensures x in Filter(s, p) <==> x in s && p(x)
  {
    if s != [] {
      FilterMembers(s[1..], p, x);
      assert s == [s[0]] + s[1..];
    }
  }

  lemma {:induction false} FilterIsSubsequence<T>(s: seq<T>, p: T -> bool)
    ensures IsSubsequence(Filter(s, p), s)
  {
    if s != [] {
      FilterIsSubsequence(s[1..], p);
      if p(s[0]) {
        assert Filter(s, p) == [s[0]] + Filter(s[1..], p);
        assert Filter(s, p)[1..] == Filter(s[1..], p);
      } else {
        assert Filter(s, p) == Filter(s[1..], p);
      }
    }
  }

  /** Filtering with a predicate that holds of every element changes nothing. */
  lemma {:induction false} FilterAll<T>(s: seq<T>, p: T -> bool)
    requires forall i :: 0 <= i < |s| ==> p(s[i])
    ensures Filter(s, p) == s
  {
    if s != [] {
      FilterAll(s[1..], p);
    }
  }

  /** Filtering commutes with concatenation. */
  lemma {:induction false} FilterAppend<T>(a: seq<T>, b: seq<T>, p: T -> bool)
    ensures Filter(a + b, p) == Filter(a, p) + Filter(b, p)
  {
    if a != [] {
      assert (a + b)[0] == a[0];
      assert (a + b)[1..] == a[1..] + b;
      FilterAppend(a[1..], b, p);
      calc {
        Filter(a + b, p);
        (if p(a[0]) then [a[0]] else []) + Filter(a[1..] + b, p);
        (if p(a[0]) then [a[0]] else []) + (Filter(a[1..], p) + Filter(b, p));
      }
    } else {
      assert a + b == b;
    }
  }

  /** `toLowerCase` on the ASCII letters; every other character is kept. */
  function LowerChar(c: char): char
  {
    if 'A' <= c <= 'Z' then (c as int + 32) as char else c
  }

  function Lower(s: string): (r: string)
    ensures |r| == |s|
    ensures forall i :: 0 <= i < |s| ==> r[i] == LowerChar(s[i])
  {
    seq(|s|, i requires 0 <= i < |s| => LowerChar(s[i]))
  }

  /** `String.prototype.includes`: `sub` occurs in `s` at some position. */
  predicate Contains(s: string, sub: string)
    decreases |s|
  {
    sub <= s || (s != [] && Contains(s[1..], sub))
  }

  lemma {:induction false} ContainsAt(s: string, sub: string, k: nat)
    requires k + |sub| <= |s| && s[k..k + |sub|] == sub
    ensures Contains(s, sub)
  {
    if k > 0 {
      assert s[1..][k - 1..k - 1 + |sub|] == s[k..k + |sub|];
      ContainsAt(s[1..], sub, k - 1);
    } else {
      assert sub <= s;
    }
  }

  function DigitChar(d: nat): char
    requires d < 10
  {
    "0123456789"[d]
  }

  /** `Number.prototype.toString` on a non-negative integer: decimal digits. */
  function NatToString(n: nat): (r: string)
    ensures |r| >= 1
    ensures forall i :: 0 <= i < |r| ==> '0' <= r[i] <= '9'
  {
    if n < 10 then [DigitChar(n)] else NatToString(n / 10) + [DigitChar(n % 10)]
  }
}
