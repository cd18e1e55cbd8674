/**
 * The string operations the mention handler uses: `str.split(sep, maxsplit=1)`,
 * `str.strip()` and `str.join`, over strings of code points.
 */
module Text {

  /** Python's `str.isspace()` for one code point. */
  predicate IsSpace(c: char) {
    || ('\t' <= c <= '\r')
    || ('\U{1C}' <= c <= '\U{1F}')
    || c == ' '
    || c == '\U{85}'
    || c == '\U{A0}'
    || c == '\U{1680}'
    || ('\U{2000}' <= c <= '\U{200A}')
    || c == '\U{2028}'
    || c == '\U{2029}'
    || c == '\U{202F}'
    || c == '\U{205F}'
    || c == '\U{3000}'
  }

  predicate AllSpace(s: string) {
    forall i :: 0 <= i < |s| ==> IsSpace(s[i])
  }

  /** The text has no whitespace at either end. */
  predicate Stripped(s: string) {
    s == [] || (!IsSpace(s[0]) && !IsSpace(s[|s| - 1]))
  }

  /** `s.split(sep, maxsplit=1)` for a one-character separator. */
  function SplitOnce(s: string, sep: char): (parts: seq<string>)
    ensures |parts| == 1 <==> sep !in s
    ensures |parts| == 1 ==> parts[0] == s
    ensures |parts| == 2 || |parts| == 1
    ensures |parts| == 2 ==> s == parts[0] + [sep] + parts[1] && sep !in parts[0]
  {
    if |s| == 0 then [s]
    else if s[0] == sep then ["", s[1..]]
    else
      var rest := SplitOnce(s[1..], sep);
      assert s == [s[0]] + s[1..];
      if |rest| == 1 then [s] else [[s[0]] + rest[0], rest[1]]
  }

  /** The number of whitespace code points `s` starts with. */
  function Lead(s: string): (k: nat)
    ensures k <= |s|
    ensures forall i :: 0 <= i < k ==> IsSpace(s[i])
    ensures k < |s| ==> !IsSpace(s[k])
  {
    if |s| > 0 && IsSpace(s[0]) then
      var k := Lead(s[1..]);
      assert forall i :: 1 <= i < k + 1 ==> s[i] == s[1..][i - 1];
      k + 1
    else 0
  }

  /** The length of `s` once the whitespace it ends with is cut off. */
  function Trail(s: string): (k: nat)
    ensures k <= |s|
    ensures forall i :: k <= i < |s| ==> IsSpace(s[i])
    ensures k > 0 ==> !IsSpace(s[k - 1])
  {
    if |s| > 0 && IsSpace(s[|s| - 1]) then
      var k := Trail(s[..|s| - 1]);
      assert forall i :: k <= i < |s| - 1 ==> s[i] == s[..|s| - 1][i];
      k
    else |s|
  }

  /** `s.lstrip()`. */
  function TrimStart(s: string): string {
    s[Lead(s)..]
  }

  /** `s.rstrip()`. */
  function TrimEnd(s: string): string {
    s[..Trail(s)]
  }

  /** `s.strip()`: never longer than `s`, and neither starting nor ending with whitespace. */
  function Strip(s: string): (r: string)
    ensures |r| <= |s|
    ensures Stripped(r)
  {
    TrimEnd(TrimStart(s))
  }

  /** Leading whitespace adds to the count of whitespace `s` starts with. */
  lemma {:induction false} LeadOfSpace(a: string, t: string)
    requires AllSpace(a)
    ensures Lead(a + t) == |a| + Lead(t)
  {
    if a != [] {
      assert (a + t)[0] == a[0];
      assert (a + t)[1..] == a[1..] + t;
      var c := a[1..];
      assert AllSpace(c) by {
        forall i | 0 <= i < |c| ensures IsSpace(c[i]) {
          assert c[i] == a[i + 1];
        }
      }
      LeadOfSpace(c, t);
    } else {
      assert a + t == t;
    }
  }

  /** Trailing whitespace leaves the cut-off point where it was. */
  lemma {:induction false} TrailOfSpace(t: string, b: string)
    requires AllSpace(b)
    ensures Trail(t + b) == Trail(t)
  {
    if b != [] {
      var n := |t + b| - 1;
      assert (t + b)[n] == b[|b| - 1];
      assert (t + b)[..n] == t + b[..|b| - 1];
      var c := b[..|b| - 1];
      assert AllSpace(c) by {
        forall i | 0 <= i < |c| ensures IsSpace(c[i]) {
          assert c[i] == b[i];
        }
      }
      TrailOfSpace(t, c);
    } else {
      assert t + b == t;
    }
  }

  /** `Strip(s)` is an infix of `s` with only whitespace around it. */
  lemma StripShape(s: string)
    ensures var r := Strip(s);
      exists a, b :: s == a + r + b && AllSpace(a) && AllSpace(b)
  {
    var t := TrimStart(s);
    var r := TrimEnd(t);
    var a, b := s[..Lead(s)], t[Trail(t)..];
    assert t == r + b;
    assert s == a + r + b by {
      assert s == a + t;
    }
    assert AllSpace(a) && AllSpace(b);
  }

  /**
   * `Strip` is characterized by its shape: whenever `s` is whitespace, then `r`,
   * then whitespace, and `r` neither starts nor ends with whitespace, `Strip(s)` is `r`.
   */
  lemma StripUnique(s: string, a: string, r: string, b: string)
    requires s == a + r + b && AllSpace(a) && AllSpace(b)
    requires Stripped(r)
    ensures Strip(s) == r
  {
    assert s == a + (r + b);
    LeadOfSpace(a, r + b);
    if r == [] {
      assert r + b == b + [];
      LeadOfSpace(b, []);
      assert TrimStart(s) == [];
    } else {
      assert (r + b)[0] == r[0];
      assert TrimStart(s) == r + b;
      TrailOfSpace(r, b);
      assert TrimEnd(r + b) == r;
    }
  }

  /** Stripping twice is stripping once. */
  lemma StripIdempotent(s: string)
    ensures Strip(Strip(s)) == Strip(s)
  {
    var r := Strip(s);
    StripShape(s);
    assert r == [] + r + [];
    StripUnique(r, [], r, []);
  }

  /** `sep.join(parts)`: it starts with the first part and ends with the last. */
  function Join(parts: seq<string>, sep: string): (r: string)
    ensures |parts| > 0 ==> parts[0] <= r
    ensures |parts| > 0 ==> |parts[|parts| - 1]| <= |r| && r[|r| - |parts[|parts| - 1]|..] == parts[|parts| - 1]
  {
    if |parts| == 0 then ""
    else if |parts| == 1 then parts[0]
    else parts[0] + sep + Join(parts[1..], sep)
  }

  /** Joining two non-empty lists is joining their joins. */
  lemma {:induction false} JoinAppend(a: seq<string>, b: seq<string>, sep: string)
    requires |a| > 0 && |b| > 0
    ensures Join(a + b, sep) == Join(a, sep) + sep + Join(b, sep)
  {
    if |a| == 1 {
      assert (a + b)[1..] == b;
    } else {
      assert (a + b)[1..] == a[1..] + b;
      JoinAppend(a[1..], b, sep);
    }
  }

  function TotalLength(parts: seq<string>): nat {
    if parts == [] then 0 else |parts[0]| + TotalLength(parts[1..])
  }

  /** The join holds every part and one separator between each two. */
  lemma {:induction false} JoinLength(parts: seq<string>, sep: string)
    requires |parts| > 0
    ensures |Join(parts, sep)| == TotalLength(parts) + (|parts| - 1) * |sep|
  {
    if |parts| > 1 {
      JoinLength(parts[1..], sep);
    }
  }
}
