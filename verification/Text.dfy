/** The string helpers the money paths rely on: trimming, lower-casing and decimal printing and parsing. */
module Text {
  import opened Wrappers

  const MAX_INT64: int := 0x7FFF_FFFF_FFFF_FFFF

  predicate IsSpace(c: char) {
    || '\t' <= c <= '\r' || c == ' ' || c == '\U{85}' || c == '\U{A0}' || c == '\U{1680}'
    || '\U{2000}' <= c <= '\U{200A}' || c == '\U{2028}' || c == '\U{2029}' || c == '\U{202F}'
    || c == '\U{205F}' || c == '\U{3000}'
  }

  function TrimLeft(s: string): string {
    if s != [] && IsSpace(s[0]) then TrimLeft(s[1..]) else s
  }

  function TrimRight(s: string): string {
    if s != [] && IsSpace(s[|s| - 1]) then TrimRight(s[..|s| - 1]) else s
  }

  /** White space removed at both ends, and nowhere else. */
  function TrimSpace(s: string): string {
    TrimRight(TrimLeft(s))
  }

  /** Lower-casing of the letters that occur in hexadecimal wallet addresses. */
  function ToLower(s: string): string {
    seq(|s|, i requires 0 <= i < |s| => if 'A' <= s[i] <= 'Z' then s[i] - 'A' + 'a' else s[i])
  }

  lemma {:induction false} TrimSpaceKeeps(s: string)
    requires forall i :: 0 <= i < |s| ==> !IsSpace(s[i])
    ensures TrimSpace(s) == s
  {
  }

  lemma {:induction false} TrimRightEnds(s: string)
    ensures TrimRight(s) == "" || !IsSpace(TrimRight(s)[|TrimRight(s)| - 1])
  {
    if s != [] && IsSpace(s[|s| - 1]) {
      TrimRightEnds(s[..|s| - 1]);
    }
  }

  lemma {:induction false} TrimLeftTrims(s: string) returns (left: string)
    ensures s == left + TrimLeft(s) && forall c <- left :: IsSpace(c)
    ensures TrimLeft(s) == "" || !IsSpace(TrimLeft(s)[0])
  {
    left := "";
    if s != [] && IsSpace(s[0]) {
      var rest := TrimLeftTrims(s[1..]);
      left := [s[0]] + rest;
    }
  }

  lemma {:induction false} TrimRightTrims(s: string) returns (right: string)
    ensures s == TrimRight(s) + right && forall c <- right :: IsSpace(c)
    ensures TrimRight(s) == "" || TrimRight(s)[0] == s[0]
  {
    right := "";
    if s != [] && IsSpace(s[|s| - 1]) {
      var rest := TrimRightTrims(s[..|s| - 1]);
      right := rest + [s[|s| - 1]];
    }
  }

  /** What is trimmed is white space, and what is left neither starts nor ends with any. */
  lemma {:induction false} TrimSpaceTrims(s: string) returns (left: string, right: string)
    ensures s == left + TrimSpace(s) + right
    ensures (forall c <- left :: IsSpace(c)) && (forall c <- right :: IsSpace(c))
    ensures var t := TrimSpace(s); t == "" || (!IsSpace(t[0]) && !IsSpace(t[|t| - 1]))
  {
    left := TrimLeftTrims(s);
    right := TrimRightTrims(TrimLeft(s));
    TrimRightEnds(TrimLeft(s));
  }

  predicate IsDigit(c: char) {
    '0' <= c <= '9'
  }

  /** Decimal digits of n, most significant first. */
  function PrintNat(n: nat): (s: string)
    ensures s != [] && forall i :: 0 <= i < |s| ==> IsDigit(s[i])
  {
    var last := ['0' + (n % 10) as char];
    if n < 10 then last else PrintNat(n / 10) + last
  }

  function DigitsValue(s: string): nat
    requires forall i :: 0 <= i < |s| ==> IsDigit(s[i])
  {
    if s == [] then 0
    else assert IsDigit(s[|s| - 1]); 10 * DigitsValue(s[..|s| - 1]) + (s[|s| - 1] as int - '0' as int)
  }

  predicate AllDigits(s: string) {
    forall i :: 0 <= i < |s| ==> IsDigit(s[i])
  }

  /** Base-10 parsing into a signed 64-bit integer: None for a syntax or a range error. */
  function ParseInt(s: string): Option<int> {
    if s == [] then None
    else
      var negative := s[0] == '-';
      var digits := if s[0] in "+-" then s[1..] else s;
      if digits == [] || !AllDigits(digits) then None
      else
        var n: int := DigitsValue(digits);
        if negative then (if n <= MAX_INT64 + 1 then Some(-n) else None)
        else if n <= MAX_INT64 then Some(n)
        else None
  }

  lemma {:induction false} PrintedDigits(n: nat)
    ensures DigitsValue(PrintNat(n)) == n
  {
    if n >= 10 {
      PrintedDigits(n / 10);
      var s := PrintNat(n);
      assert s[..|s| - 1] == PrintNat(n / 10);
    }
  }

  /** A sign is read, a minus sign down to the smallest 64-bit number, and what is not a number is refused. */
  lemma {:induction false} ParseSigned(n: nat)
    ensures var size: int := n; ParseInt("-" + PrintNat(n)) == if size <= MAX_INT64 + 1 then Some(-size) else None
    ensures ParseInt("+" + PrintNat(n)) == if n <= MAX_INT64 then Some(n) else None
  {
    var s := PrintNat(n);
    PrintedDigits(n);
    assert ("-" + s)[1..] == s && ("+" + s)[1..] == s;
  }

  lemma {:induction false} ParseRefuses(s: string, i: nat)
    requires i < |s| && !IsDigit(s[i]) && (i == 0 ==> s[0] !in "+-")
    ensures ParseInt(s) == None
  {
    if s[0] in "+-" {
      assert s[1..][i - 1] == s[i];
      assert !AllDigits(s[1..]);
    } else {
      assert !AllDigits(s);
    }
  }

  /** Printing a non-negative integer and parsing it back gives it again, exactly when it fits 64 bits. */
  lemma {:induction false} ParsePrinted(n: nat)
    ensures ParseInt(PrintNat(n)) == if n <= MAX_INT64 then Some(n) else None
    ensures TrimSpace(PrintNat(n)) == PrintNat(n)
  {
    var s := PrintNat(n);
    assert IsDigit(s[0]);
    PrintedDigits(n);
    TrimSpaceKeeps(s);
  }
}
