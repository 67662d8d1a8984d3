/** The string operations the system leans on: stripping blanks, printing and
    reading ids in decimal, and splitting a string at its first bar. */
module Text {
  import opened Types

  // ---------- str.strip() ----------

  /** The characters for which Python's `str.isspace` holds. */
  predicate IsSpace(c: char) {
    var n := c as int;
    0x09 <= n <= 0x0D || 0x1C <= n <= 0x20 || n == 0x85 || n == 0xA0 || n == 0x1680
    || 0x2000 <= n <= 0x200A || n == 0x2028 || n == 0x2029 || n == 0x202F || n == 0x205F || n == 0x3000
  }

  /** Space, tab and line ends are blank; no other printable ASCII character is. */
  lemma BlankCharacters(c: char)
    ensures c in {' ', '\t', '\n', '\r'} ==> IsSpace(c)
    ensures '!' <= c <= '~' ==> !IsSpace(c)
  {
  }

  function StripLeft(s: string): string {
    if s != "" && IsSpace(s[0]) then StripLeft(s[1..]) else s
  }

  function StripRight(s: string): string {
    if s != "" && IsSpace(s[|s| - 1]) then StripRight(s[..|s| - 1]) else s
  }

  function Strip(s: string): string {
    StripRight(StripLeft(s))
  }

  predicate Blank(s: string) {
    forall k :: 0 <= k < |s| ==> IsSpace(s[k])
  }

  predicate Trimmed(s: string) {
    s != "" ==> !IsSpace(s[0]) && !IsSpace(s[|s| - 1])
  }

  lemma {:induction false} StripLeftCuts(s: string) returns (k: nat)
    ensures k <= |s| && StripLeft(s) == s[k..] && Blank(s[..k])
    ensures k < |s| ==> !IsSpace(s[k])
  {
    if s != "" && IsSpace(s[0]) {
      var j := StripLeftCuts(s[1..]);
      k := j + 1;
      assert s[k..] == s[1..][j..];
      assert s[..k] == [s[0]] + s[1..][..j];
    } else {
      k := 0;
    }
  }

  /** What is left of s[..n] when blanks are taken off its end. */
  lemma {:induction false} StripRightUpTo(s: string, n: nat) returns (k: nat)
    requires n <= |s|
    ensures k <= n && StripRight(s[..n]) == s[..k]
    ensures forall j :: k <= j < n ==> IsSpace(s[j])
    ensures 0 < k ==> !IsSpace(s[k - 1])
  {
    k := n;
    if n > 0 && IsSpace(s[n - 1]) {
      assert s[..n][..n - 1] == s[..n - 1];
      k := StripRightUpTo(s, n - 1);
    }
  }

  lemma StripRightCuts(s: string) returns (k: nat)
    ensures k <= |s| && StripRight(s) == s[..k] && Blank(s[k..])
    ensures 0 < k ==> !IsSpace(s[k - 1])
  {
    assert s[..|s|] == s;
    k := StripRightUpTo(s, |s|);
  }

  /** Stripping cuts blanks off both ends, and leaves nothing only of a blank string. */
  lemma StripCuts(s: string) returns (a: nat, b: nat)
    ensures a <= b <= |s| && Strip(s) == s[a..b]
    ensures Blank(s[..a]) && Blank(s[b..]) && Trimmed(Strip(s))
    ensures Strip(s) == "" <==> Blank(s)
  {
    a := StripLeftCuts(s);
    var t := StripLeft(s);
    var k := StripRightCuts(t);
    b := a + k;
    assert Strip(s) == s[a..b];
    assert s[b..] == t[k..];
    if Strip(s) == "" {
      assert s == s[..a] + s[b..];
    } else {
      assert Strip(s)[0] == s[a];
    }
  }

  // ---------- Decimal printing ----------

  predicate IsDigit(c: char) {
    '0' <= c <= '9'
  }

  predicate AllDigits(s: string) {
    forall k :: 0 <= k < |s| ==> IsDigit(s[k])
  }

  function Decimal(n: nat): (s: string)
    ensures s != "" && AllDigits(s)
  {
    var last := [('0' as int + n % 10) as char];
    if n < 10 then last else Decimal(n / 10) + last
  }

  function Value(s: string): nat
    requires AllDigits(s)
  {
    if s == "" then 0
    else Value(s[..|s| - 1]) * 10 + (s[|s| - 1] as int - '0' as int)
  }

  /** `int(s)` on the digit strings the feed holds; `None` is the ValueError. */
  function ParseInt(s: string): Option<nat> {
    if s != "" && AllDigits(s) then Some(Value(s)) else None
  }

  lemma {:induction false} ParseDecimal(n: nat)
    ensures ParseInt(Decimal(n)) == Some(n)
  {
    var s := Decimal(n);
    if n < 10 {
      assert n % 10 == n && s[..|s| - 1] == "";
      assert Value(s) == Value("") * 10 + n;
    } else {
      ParseDecimal(n / 10);
      assert s[..|s| - 1] == Decimal(n / 10);
    }
  }

  /** Ids are printed in base ten without leading zeros. */
  lemma {:induction false} DecimalIsCanonical(n: nat)
    ensures n < 10 ==> Decimal(n) == [('0' as int + n) as char]
    ensures n >= 10 ==> Decimal(n)[0] != '0' && Decimal(n) == Decimal(n / 10) + Decimal(n % 10)
    ensures n > 0 ==> Decimal(n)[0] != '0'
  {
    if n >= 10 {
      DecimalIsCanonical(n / 10);
      assert Decimal(n % 10) == [('0' as int + n % 10) as char];
    }
  }

  // ---------- str.partition("|") ----------

  function FirstBar(s: string): (k: nat)
    ensures k <= |s|
    ensures forall j :: 0 <= j < k ==> s[j] != '|'
    ensures k < |s| ==> s[k] == '|'
  {
    if s == "" || s[0] == '|' then 0 else 1 + FirstBar(s[1..])
  }

  /** The parts before and after the first bar (Python's first and third results). */
  function Partition(s: string): (string, string) {
    var k := FirstBar(s);
    if k < |s| then (s[..k], s[k + 1..]) else (s, "")
  }
}
