/** The string helpers the bridge uses everywhere: trimming, case folding, splitting, decimal numbers.

    Case folding covers ASCII letters only. */
module Text {

  // unicode.IsSpace
  predicate IsSpace(c: char) {
    var u := c as int;
    || 9 <= u <= 13 || u == 0x20 || u == 0x85 || u == 0xA0 || u == 0x1680
    || 0x2000 <= u <= 0x200A || u == 0x2028 || u == 0x2029 || u == 0x202F || u == 0x205F || u == 0x3000
  }

  // The white space of Unicode: tab to carriage return, space, next line, and the space separators.
  lemma {:induction false} SpacesAre(c: char)
    ensures IsSpace(c) <==> c as int in {9, 10, 11, 12, 13, 32, 133, 160, 5760, 8192, 8193, 8194, 8195, 8196, 8197, 8198, 8199, 8200, 8201, 8202,
                                         8232, 8233, 8239, 8287, 12288}
  {
  }

  function TrimLeft(s: string): string {
    if s != "" && IsSpace(s[0]) then TrimLeft(s[1..]) else s
  }

  function TrimRight(s: string): string {
    if s != "" && IsSpace(s[|s| - 1]) then TrimRight(s[..|s| - 1]) else s
  }

  function Trim(s: string): string {
    TrimRight(TrimLeft(s))
  }

  // Neither end is white space.
  predicate IsTrimmed(s: string) {
    s == "" || (!IsSpace(s[0]) && !IsSpace(s[|s| - 1]))
  }

  lemma {:induction false} TrimLeftTrims(s: string)
    ensures TrimLeft(s) == "" || !IsSpace(TrimLeft(s)[0])
  {
    if s != "" && IsSpace(s[0]) {
      TrimLeftTrims(s[1..]);
    }
  }

  lemma {:induction false} TrimRightTrims(s: string)
    requires s == "" || !IsSpace(s[0])
    ensures IsTrimmed(TrimRight(s))
  {
    if s != "" && IsSpace(s[|s| - 1]) {
      TrimRightTrims(s[..|s| - 1]);
    }
  }

  lemma {:induction false} TrimTrims(s: string)
    ensures IsTrimmed(Trim(s))
  {
    TrimLeftTrims(s);
    TrimRightTrims(TrimLeft(s));
  }

  lemma {:induction false} TrimmedStays(s: string)
    ensures IsTrimmed(s) ==> Trim(s) == s
  {
  }

  lemma {:induction false} TrimTwice(s: string)
    ensures Trim(Trim(s)) == Trim(s)
  {
    TrimTrims(s);
    TrimmedStays(Trim(s));
  }

  lemma {:induction false} NoSpaceIsTrimmed(s: string)
    requires forall i :: 0 <= i < |s| ==> !IsSpace(s[i])
    ensures Trim(s) == s
  {
    TrimmedStays(s);
  }

  function LowerChar(c: char): char {
    if 'A' <= c <= 'Z' then (c as int + 32) as char else c
  }

  function Lower(s: string): string {
    seq(|s|, i requires 0 <= i < |s| => LowerChar(s[i]))
  }

  predicate EqualFold(a: string, b: string) {
    Lower(a) == Lower(b)
  }

  // Folding takes capitals to small letters and leaves the rest, so words that differ in case only are equal.
  lemma {:induction false} FoldIgnoresCase(s: string)
    ensures |Lower(s)| == |s| && EqualFold(s, Lower(s))
    ensures forall i :: 0 <= i < |s| ==>
      (if 'A' <= s[i] <= 'Z' then Lower(s)[i] as int == s[i] as int + 32 else Lower(s)[i] == s[i])
  {
    assert forall i :: 0 <= i < |s| ==> Lower(Lower(s))[i] == Lower(s)[i];
  }

  function ReplaceChar(s: string, before: char, after: char): string {
    seq(|s|, i requires 0 <= i < |s| => if s[i] == before then after else s[i])
  }

  // ---- splitting and joining on one separator ----

  // The index of the first separator, or the length.
  function IndexOf(s: string, sep: char): (k: nat)
    ensures k <= |s| && (k < |s| ==> s[k] == sep) && forall i :: 0 <= i < k ==> s[i] != sep
  {
    if s == "" || s[0] == sep then 0 else IndexOf(s[1..], sep) + 1
  }

  function Split(s: string, sep: char): seq<string> {
    var k := IndexOf(s, sep);
    if k == |s| then [s] else [s[..k]] + Split(s[k + 1..], sep)
  }

  function Join(parts: seq<string>, sep: char): string {
    if parts == [] then ""
    else if |parts| == 1 then parts[0]
    else parts[0] + [sep] + Join(parts[1..], sep)
  }

  lemma {:induction false} JoinSplit(s: string, sep: char)
    ensures Split(s, sep) != [] && Join(Split(s, sep), sep) == s
    decreases |s|
  {
    var k := IndexOf(s, sep);
    if k < |s| {
      var rest := Split(s[k + 1..], sep);
      JoinSplit(s[k + 1..], sep);
      assert Split(s, sep) == [s[..k]] + rest && ([s[..k]] + rest)[1..] == rest;
      hide Split;
      assert s == s[..k] + [sep] + s[k + 1..];
    }
  }

  // How often c occurs.
  function Tally(s: string, c: char): nat {
    if s == "" then 0 else Tally(s[1..], c) + if s[0] == c then 1 else 0
  }

  lemma {:induction false} TallyAdds(s: string, t: string, c: char)
    ensures Tally(s + t, c) == Tally(s, c) + Tally(t, c)
  {
    if s == "" {
      assert s + t == t;
    } else {
      assert (s + t)[1..] == s[1..] + t;
      TallyAdds(s[1..], t, c);
    }
  }

  lemma {:induction false} TallyOfNone(s: string, c: char)
    ensures Tally(s, c) == 0 <==> c !in s
  {
    if s != "" {
      assert s == [s[0]] + s[1..];
      TallyOfNone(s[1..], c);
    }
  }

  // Up to the first separator.
  lemma {:induction false} SplitUnique(a: string, b: string, x: string, y: string, sep: char)
    requires sep !in a && sep !in b && a + [sep] + x == b + [sep] + y
    ensures a == b && x == y
  {
    var whole := a + [sep] + x;
    assert forall i | 0 <= i < |a| :: whole[i] == a[i] && a[i] != sep;
    assert forall i | 0 <= i < |b| :: whole[i] == b[i] && b[i] != sep by {
      assert whole == b + [sep] + y;
    }
    assert whole[|a|] == sep && (b + [sep] + y)[|b|] == sep;
    assert |a| == |b|;
    assert a == whole[..|a|] && b == whole[..|b|];
    assert x == whole[|a| + 1..] && y == whole[|b| + 1..];
  }

  // ---- decimal numbers ----

  datatype Option<T> = None | Some(value: T)

  function DigitChar(d: nat): char
    requires d < 10
  {
    ('0' as int + d) as char
  }

  function FormatNat(n: nat): string {
    if n < 10 then [DigitChar(n)] else FormatNat(n / 10) + [DigitChar(n % 10)]
  }

  function FormatInt(n: int): string {
    if n < 0 then "-" + FormatNat(-n) else FormatNat(n)
  }

  function ParseNat(s: string): Option<nat> {
    if s == "" || !('0' <= s[|s| - 1] <= '9') then None
    else
      var d: nat := s[|s| - 1] as int - '0' as int;
      if |s| == 1 then Some(d)
      else
        var high := ParseNat(s[..|s| - 1]);
        if high.None? then None else Some(high.value * 10 + d)
  }

  const MIN_INT64: int := -0x8000_0000_0000_0000
  const MAX_INT64: int := 0x7FFF_FFFF_FFFF_FFFF

  // strconv.ParseInt(s, 10, 64): an optional sign, then digits; out of range is an error.
  function ParseInt(s: string): Option<int> {
    if s == "" then None
    else
      var signed := s[0] == '-' || s[0] == '+';
      var digits := ParseNat(if signed then s[1..] else s);
      if digits.None? then None
      else
        var magnitude: int := digits.value;
        var n := if s[0] == '-' then -magnitude else magnitude;
        if MIN_INT64 <= n <= MAX_INT64 then Some(n) else None
  }

  lemma {:induction false} ParseFormatNat(n: nat)
    ensures ParseNat(FormatNat(n)) == Some(n)
    ensures FormatNat(n) != "" && forall i :: 0 <= i < |FormatNat(n)| ==> '0' <= FormatNat(n)[i] <= '9'
  {
    if n >= 10 {
      ParseFormatNat(n / 10);
      var s := FormatNat(n);
      assert s[..|s| - 1] == FormatNat(n / 10);
    }
  }

  lemma {:induction false} ParseFormatInt(n: int)
    requires MIN_INT64 <= n <= MAX_INT64
    ensures ParseInt(FormatInt(n)) == Some(n)
    ensures FormatInt(n) != "" && Trim(FormatInt(n)) == FormatInt(n)
  {
    hide FormatNat, ParseNat, TrimLeft, TrimRight;
    var digits := if n < 0 then -n else n;
    ParseFormatNat(digits);
    var s := FormatInt(n);
    if n < 0 {
      assert s[1..] == FormatNat(digits) && s[0] == '-';
    } else {
      assert s == FormatNat(digits) && '0' <= s[0] <= '9';
    }
    NoSpaceIsTrimmed(s);
  }
}
