/** C strings, decimal numbers and small text helpers shared by the whole model. */
module CStrings {

  datatype Option<+T> = None | Some(value: T)

  const NUL := '\0'

  predicate NulFree(s: string) {
    NUL !in s
  }

  /** `strlen`: the number of characters before the first NUL (or all of them). */
  function StrLen(buf: seq<char>): (n: nat)
    ensures n <= |buf|
    ensures forall i :: 0 <= i < n ==> buf[i] != NUL
    ensures n < |buf| ==> buf[n] == NUL
  {
    if |buf| == 0 || buf[0] == NUL then 0 else 1 + StrLen(buf[1..])
  }

  /** The C string held by a buffer. */
  function CString(buf: seq<char>): string {
    buf[..StrLen(buf)]
  }

  lemma StrLenAt(buf: seq<char>, n: nat)
    requires n < |buf| && buf[n] == NUL && forall i :: 0 <= i < n ==> buf[i] != NUL
    ensures StrLen(buf) == n
  {
  }

  lemma Assoc(a: string, b: string, c: string)
    ensures a + b + c == a + (b + c)
  {
  }

  /** `strncmp(s, prefix, strlen(prefix)) == 0`. */
  predicate HasPrefix(s: string, prefix: string) {
    |prefix| <= |s| && s[..|prefix|] == prefix
  }

  /** A line without its final newline. */
  function Trim(line: string): string {
    if line != "" && line[|line| - 1] == '\n' then line[..|line| - 1] else line
  }

  function DeleteNewlines(s: string): (r: string)
    ensures '\n' !in r
  {
    if s == "" then ""
    else if s[0] == '\n' then DeleteNewlines(s[1..])
    else [s[0]] + DeleteNewlines(s[1..])
  }

  lemma {:induction false} DeleteNewlinesAppend(s: string, t: string)
    ensures DeleteNewlines(s + t) == DeleteNewlines(s) + DeleteNewlines(t)
  {
    if s == "" {
      assert s + t == t;
    } else {
      assert (s + t)[1..] == s[1..] + t;
      DeleteNewlinesAppend(s[1..], t);
    }
  }

  lemma {:induction false} DeleteNewlinesNone(s: string)
    requires '\n' !in s
    ensures DeleteNewlines(s) == s
  {
    if s != "" {
      DeleteNewlinesNone(s[1..]);
    }
  }

  // ---- decimal numbers -------------------------------------------------

  predicate IsDigit(c: char) {
    '0' <= c <= '9'
  }

  function Digit(n: nat): char
    requires n < 10
  {
    n as char + '0'
  }

  /** `sprintf("%lu")`. */
  function Decimal(n: nat): (s: string)
    ensures s != "" && forall c :: c in s ==> IsDigit(c)
  {
    if n < 10 then [Digit(n)] else Decimal(n / 10) + [Digit(n % 10)]
  }

  /** `sprintf("%ld")`. */
  function SignedDecimal(n: int): string {
    if n < 0 then "-" + Decimal(-n) else Decimal(n)
  }

  /** The digits at the front of `s`, read in base ten after `acc`. */
  function ReadDigits(s: string, acc: nat): nat {
    if s == "" || !IsDigit(s[0]) then acc
    else ReadDigits(s[1..], 10 * acc + (s[0] as int - '0' as int))
  }

  predicate IsSpace(c: char) {
    c == ' ' || '\t' <= c <= '\r'
  }

  /** `atoi` / `atol`: leading space, an optional sign, then digits. */
  function Atol(s: string): int {
    if s == "" then 0
    else if IsSpace(s[0]) then Atol(s[1..])
    else if s[0] == '-' then 0 - ReadDigits(s[1..], 0)
    else if s[0] == '+' then ReadDigits(s[1..], 0)
    else ReadDigits(s, 0)
  }

  lemma {:induction false} ReadDigitsAppend(s: string, d: char, acc: nat)
    requires IsDigit(d) && forall c :: c in s ==> IsDigit(c)
    ensures ReadDigits(s + [d], acc) == 10 * ReadDigits(s, acc) + (d as int - '0' as int)
  {
    if s == "" {
      assert (s + [d])[1..] == "";
    } else {
      assert (s + [d])[1..] == s[1..] + [d];
      assert IsDigit(s[0]);
      ReadDigitsAppend(s[1..], d, 10 * acc + (s[0] as int - '0' as int));
    }
  }

  lemma {:induction false} ReadDecimal(n: nat)
    ensures ReadDigits(Decimal(n), 0) == n
  {
    if n < 10 {
      assert Decimal(n)[1..] == "";
    } else {
      ReadDecimal(n / 10);
      ReadDigitsAppend(Decimal(n / 10), Digit(n % 10), 0);
    }
  }

  function Pow10(k: nat): nat {
    if k == 0 then 1 else 10 * Pow10(k - 1)
  }

  lemma {:induction false} DecimalFits(n: nat, k: nat)
    requires n < Pow10(k) && 1 <= k
    ensures |Decimal(n)| <= k
  {
    if n >= 10 {
      assert k > 1;
      DecimalFits(n / 10, k - 1);
    }
  }

  /** Printing a number and reading it back with `atol` is the identity. */
  lemma AtolSignedDecimal(n: int)
    ensures Atol(SignedDecimal(n)) == n
  {
    if n < 0 {
      ReadDecimal(-n);
      assert SignedDecimal(n)[1..] == Decimal(-n);
    } else {
      ReadDecimal(n);
      assert IsDigit(Decimal(n)[0]);
    }
  }
}
