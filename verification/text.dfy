/** Java string behaviour the services rely on: nullable strings, `toLowerCase`, string
    concatenation with a null operand, and `Long.toString` inside messages. */
module JavaText {
  import opened Wrappers

  /** A `java.lang.String` reference: `None` is null. */
  type Text = Option<string>

  function LowerChar(c: char): char
  {
    if 'A' <= c <= 'Z' then (c as int + 32) as char else c
  }

  /** ASCII lower-casing, standing in for `String.toLowerCase`. */
  function Lower(s: string): (r: string)
    ensures |r| == |s|
    ensures forall i :: 0 <= i < |s| ==> !('A' <= r[i] <= 'Z')
    ensures forall i :: 0 <= i < |s| && !('A' <= s[i] <= 'Z') ==> r[i] == s[i]
    ensures forall i :: 0 <= i < |s| && 'A' <= s[i] <= 'Z' ==> r[i] == (s[i] as int + 32) as char
  {
    seq(|s|, i requires 0 <= i < |s| => LowerChar(s[i]))
  }

  /** What `"..." + x` appends for a String `x`: its characters, or "null". */
  function Show(t: Text): (r: string)
    ensures t.Some? ==> r == t.value
    ensures t.None? ==> r == "null"
  {
    match t
    case Some(s) => s
    case None => "null"
  }

  /** True when `t` is a non-null, non-empty string (`t != null && !t.isEmpty()`). */
  predicate Present(t: Text)
  {
    t.Some? && t.value != ""
  }

  function DigitChar(d: nat): char
    requires d < 10
  {
    ('0' as int + d) as char
  }

  /** Decimal digits of a natural number, most significant first. */
  function Digits(n: nat): (r: string)
    ensures |r| >= 1
    ensures forall i :: 0 <= i < |r| ==> '0' <= r[i] <= '9'
    ensures n > 0 ==> r[0] != '0'
  {
    if n < 10 then [DigitChar(n)] else Digits(n / 10) + [DigitChar(n % 10)]
  }

  /** `Long.toString(n)`, used when an id is appended to a message. */
  function IntToString(n: int): (r: string)
    ensures |r| >= 1
    ensures n >= 0 <==> r[0] != '-'
  {
    if n < 0 then "-" + Digits(-n) else Digits(n)
  }
}
