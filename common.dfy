/** Small value types shared by every module of the model. */
module Common {

  /** Python's `None` or a value. */
  datatype Option<+T> = None | Some(value: T)

  /** A user, identified as Django identifies model instances: by primary key. */
  type UserId = nat

  /** Decimal digits of a natural number, as Python's `str(n)` and `f"{n}"` print it. */
  function NatToString(n: nat): (s: string)
    ensures |s| >= 1
    ensures forall i :: 0 <= i < |s| ==> '0' <= s[i] <= '9'
    ensures |s| > 1 ==> s[0] != '0'
    decreases n
  {
    if n < 10 then [Digit(n)] else NatToString(n / 10) + [Digit(n % 10)]
  }

  function Digit(d: nat): (c: char)
    requires d < 10
    ensures '0' <= c <= '9'
  {
    "0123456789"[d]
  }

  /** Reads back a string of decimal digits. */
  function DigitsValue(s: string): nat
    requires forall i :: 0 <= i < |s| ==> '0' <= s[i] <= '9'
  {
    if s == [] then 0 else DigitsValue(s[..|s| - 1]) * 10 + (s[|s| - 1] - '0') as nat
  }

  /** Printing is injective: reading the digits back gives the number. */
  lemma {:induction false} NatToStringRoundTrip(n: nat)
    ensures DigitsValue(NatToString(n)) == n
    decreases n
  {
    var s := NatToString(n);
    if n < 10 {
      assert s[..|s| - 1] == [];
      assert "0123456789"[n] - '0' == n as char - 0 as char by {
        assert "0123456789"[n] as int == '0' as int + n;
      }
    } else {
      NatToStringRoundTrip(n / 10);
      assert s[..|s| - 1] == NatToString(n / 10);
      assert "0123456789"[n % 10] as int == '0' as int + n % 10;
    }
  }

  lemma NatToStringInjective(m: nat, n: nat)
    requires NatToString(m) == NatToString(n)
    ensures m == n
  {
    NatToStringRoundTrip(m);
    NatToStringRoundTrip(n);
  }

  /** `s` begins with `p` (JavaScript `startsWith`). */
  predicate StartsWith(s: string, p: string)
  {
    |p| <= |s| && s[..|p|] == p
  }

  /** Python's `str.isspace` for a single character. */
  predicate IsSpace(c: char)
  {
    || c == ' ' || ('\t' <= c <= '\r') || ('\U{1c}' <= c <= '\U{1f}')
    || c == '\U{85}' || c == '\U{a0}' || c == '\U{1680}' || ('\U{2000}' <= c <= '\U{200a}')
    || c == '\U{2028}' || c == '\U{2029}' || c == '\U{202f}' || c == '\U{205f}' || c == '\U{3000}'
  }

  /** `s` with its leading whitespace removed. */
  function StripLeft(s: string): (r: string)
    ensures |r| <= |s| && r == s[|s| - |r|..]
    ensures r != [] ==> !IsSpace(r[0])
  {
    if s != [] && IsSpace(s[0]) then StripLeft(s[1..]) else s
  }

  /** What `StripLeft` removes is whitespace. */
  lemma {:induction false} StripLeftCutsWhitespace(s: string, k: nat)
    requires k < |s| - |StripLeft(s)|
    ensures IsSpace(s[k])
    decreases |s|
  {
    if k > 0 {
      StripLeftCutsWhitespace(s[1..], k - 1);
    }
  }

  /** `s` with its trailing whitespace removed. */
  function StripRight(s: string): (r: string)
    ensures |r| <= |s| && r == s[..|r|]
    ensures r != [] ==> !IsSpace(r[|r| - 1])
  {
    if s != [] && IsSpace(s[|s| - 1]) then StripRight(s[..|s| - 1]) else s
  }

  /** What `StripRight` removes is whitespace. */
  lemma {:induction false} StripRightCutsWhitespace(s: string, k: nat)
    requires |StripRight(s)| <= k < |s|
    ensures IsSpace(s[k])
    decreases |s|
  {
    if k < |s| - 1 {
      StripRightCutsWhitespace(s[..|s| - 1], k);
    }
  }

  /** `str.strip()`: the whitespace at both ends removed. */
  function Strip(s: string): (r: string)
    ensures var i := |s| - |StripLeft(s)|; i + |r| <= |s| && r == s[i..i + |r|]
    ensures r != [] ==> !IsSpace(r[0]) && !IsSpace(r[|r| - 1])
  {
    StripRight(StripLeft(s))
  }

  /** `Strip` cuts only whitespace: everything before and after the slice it keeps is whitespace. */
  lemma StripCutsWhitespace(s: string, k: nat)
    requires k < |s|
    ensures var i := |s| - |StripLeft(s)|; (k < i || i + |Strip(s)| <= k) ==> IsSpace(s[k])
  {
    var l := StripLeft(s);
    var i := |s| - |l|;
    if k < i {
      StripLeftCutsWhitespace(s, k);
    } else if i + |Strip(s)| <= k {
      StripRightCutsWhitespace(l, k - i);
    }
  }

  /** Stripping twice is stripping once. */
  lemma StripIdempotent(s: string)
    ensures Strip(Strip(s)) == Strip(s)
  {
    var r := Strip(s);
    if r != [] {
      assert StripLeft(r) == r;
      assert StripRight(r) == r;
    }
  }

  /** Trailing whitespace goes: `StripRight` of a text that ends in a non-space followed by whitespace. */
  lemma {:induction false} StripRightPadded(d: string, pad: string)
    requires d != [] && !IsSpace(d[|d| - 1])
    requires forall k :: 0 <= k < |pad| ==> IsSpace(pad[k])
    ensures StripRight(d + pad) == d
    decreases |pad|
  {
    if pad == [] {
      assert d + pad == d;
    } else {
      assert (d + pad)[..|d + pad| - 1] == d + pad[..|pad| - 1];
      StripRightPadded(d, pad[..|pad| - 1]);
    }
  }

  /** A text with no whitespace at its ends, followed by whitespace, strips back to that text. */
  lemma StripPadded(d: string, pad: string)
    requires d != [] && !IsSpace(d[0]) && !IsSpace(d[|d| - 1])
    requires forall k :: 0 <= k < |pad| ==> IsSpace(pad[k])
    ensures Strip(d + pad) == d
  {
    assert (d + pad)[0] == d[0];
    assert StripLeft(d + pad) == d + pad;
    StripRightPadded(d, pad);
  }
}
