/** Numbers as `atoi` and `atol` read them. */
module Numbers {
  import opened CStrings

  predicate AllDigits(d: string) {
    forall i :: 0 <= i < |d| ==> '0' <= d[i] <= '9'
  }

  /** The value of a string of digits, from its last digit. */
  function Place(d: string): nat
    requires AllDigits(d)
  {
    if d == "" then 0 else 10 * Place(d[..|d| - 1]) + (d[|d| - 1] as int - '0' as int)
  }

  lemma {:induction false} ReadPlace(d: string)
    requires AllDigits(d)
    ensures ReadDigits(d, 0) == Place(d)
  {
    if d != "" {
      var front := d[..|d| - 1];
      ReadPlace(front);
      ReadDigitsAppend(front, d[|d| - 1], 0);
      assert d == front + [d[|d| - 1]];
    }
  }

  lemma {:induction false} ReadStops(d: string, rest: string, acc: nat)
    requires AllDigits(d) && (rest == "" || !('0' <= rest[0] <= '9'))
    ensures ReadDigits(d + rest, acc) == ReadDigits(d, acc)
  {
    if d == "" {
      assert d + rest == rest;
    } else {
      assert (d + rest)[1..] == d[1..] + rest && (d + rest)[0] == d[0];
      ReadStops(d[1..], rest, 10 * acc + (d[0] as int - '0' as int));
    }
  }

  predicate Space(c: char) {
    c == ' ' || c == '\t' || c == '\n' || c == '\U{0B}' || c == '\U{0C}' || c == '\r'
  }

  /** Leading space is skipped, one sign is taken, the digits that follow count, and the rest does not. */
  lemma {:induction false} AtolIs(space: string, sign: string, d: string, rest: string)
    requires forall i :: 0 <= i < |space| ==> Space(space[i])
    requires sign == "" || sign == "-" || sign == "+"
    requires AllDigits(d) && (rest == "" || !('0' <= rest[0] <= '9'))
    requires d == "" && sign == "" && rest != "" ==> !Space(rest[0]) && rest[0] != '+' && rest[0] != '-'
    ensures var n: int := Place(d); Atol(space + (sign + (d + rest))) == if sign == "-" then -n else n
    decreases |space|
  {
    var t := sign + (d + rest);
    if space != "" {
      assert (space + t)[1..] == space[1..] + t;
      AtolIs(space[1..], sign, d, rest);
    } else {
      assert space + t == t;
      AtolUnspaced(sign, d, rest);
    }
  }

  lemma AtolUnspaced(sign: string, d: string, rest: string)
    requires sign == "" || sign == "-" || sign == "+"
    requires AllDigits(d) && (rest == "" || !('0' <= rest[0] <= '9'))
    requires d == "" && sign == "" && rest != "" ==> !Space(rest[0]) && rest[0] != '+' && rest[0] != '-'
    ensures var n: int := Place(d); Atol(sign + (d + rest)) == if sign == "-" then -n else n
  {
    var t := sign + (d + rest);
    ReadStops(d, rest, 0);
    ReadPlace(d);
    if sign != "" {
      assert t[1..] == d + rest && t[0] == sign[0];
    } else {
      assert t == d + rest && (d == "" ==> t == rest);
    }
  }
}
