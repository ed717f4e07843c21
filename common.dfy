/** Value types and string helpers shared by every module of the model. */
module Common {

  datatype Option<+T> = None | Some(value: T)

  /** A thrown error is the `Err` case; its payload is the error's message. */
  datatype Result<+T, +E> = Ok(value: T) | Err(error: E)

  /** The `{ success, message }` record that the service checks return. */
  datatype CheckResult = CheckResult(success: bool, message: string)

  /** JavaScript truthiness of a value that is either absent or a string: absent and "" are falsy. */
  predicate Truthy(s: Option<string>)
  {
    s.Some? && s.value != ""
  }

  /** `s || fallback` for an optional string whose fallback is a string. */
  function OrDefault(s: Option<string>, fallback: string): (r: string)
    ensures Some(r) == s || r == fallback
    ensures Some(r) != s ==> !Truthy(s)
    ensures r != "" <==> Truthy(s) || fallback != ""
  {
    if Truthy(s) then s.value else fallback
  }

  predicate StartsWith(s: string, prefix: string)
  {
    |prefix| <= |s| && s[..|prefix|] == prefix
  }

  predicate EndsWith(s: string, suffix: string)
  {
    |suffix| <= |s| && s[|s| - |suffix|..] == suffix
  }

  /** `part` occurs in `s` starting at index `i`. */
  predicate OccursAt(s: string, part: string, i: int)
  {
    0 <= i && i + |part| <= |s| && s[i..i + |part|] == part
  }

  /** `s.includes(part)`: `part` occurs somewhere in `s`. */
  predicate Contains(s: string, part: string)
  {
    exists i | 0 <= i <= |s| - |part| :: OccursAt(s, part, i)
  }

  /** An occurrence in `b` is an occurrence in `a + b`, shifted by `|a|`. */
  lemma ShiftOccurrence(a: string, b: string, q: string, i: nat)
    requires OccursAt(b, q, i)
    ensures OccursAt(a + b, q, |a| + i) && Contains(a + b, q)
  {
    assert (a + b)[|a| + i..|a| + i + |q|] == b[i..i + |q|];
    assert OccursAt(a + b, q, |a| + i);
  }

  lemma ContainsSuffix(s: string, part: string)
    ensures Contains(s + part, part)
  {
    var t := s + part;
    assert t[|s|..|s| + |part|] == part;
    assert OccursAt(t, part, |s|);
  }

  /** The first element of `s` that satisfies `p`, as `Array.prototype.find` returns it. */
  function FirstWhere<T>(s: seq<T>, p: T -> bool): (r: Option<T>)
    ensures r.None? <==> forall i :: 0 <= i < |s| ==> !p(s[i])
    ensures r.Some? ==> exists i :: 0 <= i < |s| && s[i] == r.value && p(s[i]) &&
                                    forall j :: 0 <= j < i ==> !p(s[j])
  {
    if s == [] then None
    else if p(s[0]) then Some(s[0])
    else
      var rest := FirstWhere(s[1..], p);
      assert forall i :: 1 <= i < |s| ==> s[i] == s[1..][i - 1];
      rest
  }

  /** `parts.join(sep)`. */
  function Join(parts: seq<string>, sep: string): string
  {
    if parts == [] then ""
    else if |parts| == 1 then parts[0]
    else parts[0] + sep + Join(parts[1..], sep)
  }

  function SumLengths(parts: seq<string>): nat
  {
    if parts == [] then 0 else |parts[0]| + SumLengths(parts[1..])
  }

  /** Where the `k`-th part starts in the joined string: the parts before it and one separator after each. */
  function JoinOffset(parts: seq<string>, sep: string, k: nat): nat
    requires k <= |parts|
  {
    SumLengths(parts[..k]) + k * |sep|
  }

  lemma JoinOffsetStep(parts: seq<string>, sep: string, k: nat)
    requires 1 <= k <= |parts|
    ensures JoinOffset(parts, sep, k) == |parts[0]| + |sep| + JoinOffset(parts[1..], sep, k - 1)
  {
    assert parts[..k][1..] == parts[1..][..k - 1];
    assert k * |sep| == |sep| + (k - 1) * |sep|;
  }

  /** A part or separator at its offset in the join of the tail stands at its offset in the whole join. */
  lemma JoinShifts(parts: seq<string>, sep: string, k: nat)
    requires 1 <= k < |parts|
    requires OccursAt(Join(parts[1..], sep), parts[k], JoinOffset(parts[1..], sep, k - 1))
    requires k < |parts| - 1 ==>
               OccursAt(Join(parts[1..], sep), sep, JoinOffset(parts[1..], sep, k - 1) + |parts[k]|)
    ensures OccursAt(Join(parts, sep), parts[k], JoinOffset(parts, sep, k))
    ensures k < |parts| - 1 ==> OccursAt(Join(parts, sep), sep, JoinOffset(parts, sep, k) + |parts[k]|)
  {
    var pre := parts[0] + sep;
    var rest := Join(parts[1..], sep);
    assert Join(parts, sep) == pre + rest;
    JoinOffsetStep(parts, sep, k);
    ShiftOccurrence(pre, rest, parts[k], JoinOffset(parts[1..], sep, k - 1));
    if k < |parts| - 1 {
      ShiftOccurrence(pre, rest, sep, JoinOffset(parts[1..], sep, k - 1) + |parts[k]|);
    }
  }

  /** A join's length is the parts' total length plus one separator between each two parts. */
  lemma {:induction false} JoinLength(parts: seq<string>, sep: string)
    ensures parts == [] ==> Join(parts, sep) == ""
    ensures parts != [] ==> |Join(parts, sep)| == SumLengths(parts) + (|parts| - 1) * |sep|
  {
    if |parts| > 1 {
      JoinLength(parts[1..], sep);
      assert (|parts| - 1) * |sep| == |sep| + (|parts| - 2) * |sep|;
    }
  }

  /** The first part starts a join of two or more parts, and the separator follows it. */
  lemma JoinHead(parts: seq<string>, sep: string)
    requires |parts| > 1
    ensures OccursAt(Join(parts, sep), parts[0], JoinOffset(parts, sep, 0))
    ensures OccursAt(Join(parts, sep), sep, JoinOffset(parts, sep, 0) + |parts[0]|)
  {
    var r := Join(parts, sep);
    assert JoinOffset(parts, sep, 0) == 0;
    assert r == parts[0] + sep + Join(parts[1..], sep);
    assert r[..|parts[0]|] == parts[0];
    assert r[|parts[0]|..|parts[0]| + |sep|] == sep;
  }

  /** Each part of a join stands at its offset, and a separator follows every part but the last. */
  lemma {:induction false} JoinPositions(parts: seq<string>, sep: string)
    ensures forall k :: 0 <= k < |parts| ==> OccursAt(Join(parts, sep), parts[k], JoinOffset(parts, sep, k))
    ensures forall k :: 0 <= k < |parts| - 1 ==>
              OccursAt(Join(parts, sep), sep, JoinOffset(parts, sep, k) + |parts[k]|)
  {
    if |parts| == 1 {
      assert JoinOffset(parts, sep, 0) == 0;
    } else if |parts| > 1 {
      var tail := parts[1..];
      JoinPositions(tail, sep);
      JoinHead(parts, sep);
      forall k | 1 <= k < |parts|
        ensures OccursAt(Join(parts, sep), parts[k], JoinOffset(parts, sep, k))
        ensures k < |parts| - 1 ==> OccursAt(Join(parts, sep), sep, JoinOffset(parts, sep, k) + |parts[k]|)
      {
        assert tail[k - 1] == parts[k];
        JoinShifts(parts, sep, k);
      }
    }
  }

  function DigitChar(d: nat): (c: char)
    requires d < 10
    ensures '0' <= c <= '9' && DigitValue(c) == d
  {
    ('0' as int + d) as char
  }

  function DigitValue(c: char): int
  {
    c as int - '0' as int
  }

  /** The number a string of decimal digits denotes, most significant digit first. */
  function DecimalValue(s: string): int
  {
    if s == [] then 0 else 10 * DecimalValue(s[..|s| - 1]) + DigitValue(s[|s| - 1])
  }

  /** Decimal rendering of a count, as a template string renders a number. */
  function NatToString(n: nat): (r: string)
    ensures |r| > 0
    ensures forall i :: 0 <= i < |r| ==> '0' <= r[i] <= '9'
    ensures n > 0 ==> r[0] != '0'
  {
    if n < 10 then [DigitChar(n)] else NatToString(n / 10) + [DigitChar(n % 10)]
  }

  /** The rendering denotes the number it renders. */
  lemma {:induction false} NatToStringValue(n: nat)
    ensures DecimalValue(NatToString(n)) == n
  {
    var r := NatToString(n);
    if n >= 10 {
      NatToStringValue(n / 10);
      assert r[..|r| - 1] == NatToString(n / 10);
    }
  }

  /** ASCII upper-casing (`toUpperCase` on the ASCII range). */
  function UpperChar(c: char): char
  {
    if 'a' <= c <= 'z' then (c as int - 'a' as int + 'A' as int) as char else c
  }

  function Upper(s: string): (r: string)
    ensures |r| == |s|
    ensures forall i :: 0 <= i < |s| ==> r[i] == UpperChar(s[i])
  {
    if s == [] then [] else [UpperChar(s[0])] + Upper(s[1..])
  }
}
