/** The string operations the metadata-file reader relies on, as Python 2
    defines them on byte strings: `str.split(", ")`, `string.replace(s, " ", "")`,
    slicing off the last character, and `int()` in base 10. */
module Text {
  import opened Wrappers
  import opened Seqs

  // ---------------------------------------------------------------------
  // Splitting on ", "

  /** `s` contains no ", ". */
  predicate NoSeparator(s: string) {
    forall i :: 0 <= i < |s| - 1 ==> !(s[i] == ',' && s[i + 1] == ' ')
  }

  /** `s.split(", ")`: the pieces between the occurrences of ", ", found
      left to right without overlap. */
  function Split(s: string): (r: seq<string>)
    ensures |r| >= 1
    decreases |s|
  {
    if |s| < 2 then [s]
    else if s[0] == ',' && s[1] == ' ' then [""] + Split(s[2..])
    else
      var rest := Split(s[1..]);
      [[s[0]] + rest[0]] + rest[1..]
  }

  /** `", ".join(parts)`. */
  function Join(parts: seq<string>): string
    requires |parts| >= 1
  {
    if |parts| == 1 then parts[0] else parts[0] + ", " + Join(parts[1..])
  }

  /** Joining the pieces back gives the original string. */
  lemma {:induction false} JoinSplit(s: string)
    ensures Join(Split(s)) == s
    decreases |s|
  {
    if |s| >= 2 {
      if s[0] == ',' && s[1] == ' ' {
        JoinSplit(s[2..]);
        assert Split(s)[1..] == Split(s[2..]);
      } else {
        JoinSplit(s[1..]);
        var rest := Split(s[1..]);
        assert Split(s)[1..] == rest[1..];
        if |rest| > 1 {
          assert rest[1..] == Split(s)[1..];
        }
      }
    }
  }

  /** No piece contains the separator. */
  lemma {:induction false} SplitPiecesHaveNoSeparator(s: string)
    ensures forall k :: 0 <= k < |Split(s)| ==> NoSeparator(Split(s)[k])
    decreases |s|
  {
    if |s| >= 2 {
      if s[0] == ',' && s[1] == ' ' {
        SplitPiecesHaveNoSeparator(s[2..]);
        assert Split(s)[1..] == Split(s[2..]);
      } else {
        SplitPiecesHaveNoSeparator(s[1..]);
        var rest := Split(s[1..]);
        var first := [s[0]] + rest[0];
        assert NoSeparator(rest[0]);
        if |rest[0]| > 0 {
          assert rest[0][0] == s[1] by {
            JoinSplit(s[1..]);
            JoinPrefix(rest);
          }
        }
        assert NoSeparator(first);
        assert Split(s)[1..] == rest[1..];
      }
    }
  }

  /** The first part is a prefix of the joined string. */
  lemma {:induction false} JoinPrefix(parts: seq<string>)
    requires |parts| >= 1
    ensures |parts[0]| <= |Join(parts)| && Join(parts)[..|parts[0]|] == parts[0]
  {
    if |parts| > 1 {
      assert Join(parts) == parts[0] + (", " + Join(parts[1..]));
    }
  }

  /** A piece without the separator, followed by the separator, is split off whole. */
  lemma {:induction false} SplitAfterPiece(p: string, t: string)
    requires NoSeparator(p)
    ensures Split(p + ", " + t) == [p] + Split(t)
    decreases |p|
  {
    var s := p + ", " + t;
    if p == [] {
      assert s[2..] == t;
    } else {
      assert s[1..] == p[1..] + ", " + t;
      SplitAfterPiece(p[1..], t);
      assert [s[0]] + p[1..] == p;
    }
  }

  /** A string without the separator is a single piece. */
  lemma {:induction false} SplitPiece(p: string)
    requires NoSeparator(p)
    ensures Split(p) == [p]
    decreases |p|
  {
    if |p| >= 2 {
      SplitPiece(p[1..]);
      assert [p[0]] + p[1..] == p;
    }
  }

  /** Splitting a join of separator-free pieces gives the pieces back. */
  lemma {:induction false} SplitJoin(parts: seq<string>)
    requires |parts| >= 1
    requires forall k :: 0 <= k < |parts| ==> NoSeparator(parts[k])
    ensures Split(Join(parts)) == parts
  {
    if |parts| == 1 {
      SplitPiece(parts[0]);
    } else {
      SplitJoin(parts[1..]);
      SplitAfterPiece(parts[0], Join(parts[1..]));
    }
  }

  // ---------------------------------------------------------------------
  // Small string edits

  /** `s[0:-1]`: everything but the last character (nothing for an empty string). */
  function DropLast(s: string): (r: string)
    ensures |s| > 0 ==> |r| == |s| - 1 && s == r + [s[|s| - 1]]
    ensures |s| == 0 ==> r == ""
  {
    if |s| == 0 then s else s[..|s| - 1]
  }

  /** `string.replace(s, " ", "")`: `s` with every space removed, the other
      characters kept in order. */
  function RemoveSpaces(s: string): (r: string)
    ensures ' ' !in r
    ensures forall c :: c in s && c != ' ' ==> c in r
    ensures forall c :: c in r ==> c in s
    ensures IsSubsequence(r, s)
    ensures |r| == |s| - multiset(s)[' ']
  {
    if s == [] then []
    else
      assert s == [s[0]] + s[1..];
      if s[0] == ' ' then RemoveSpaces(s[1..])
      else
        var rest := RemoveSpaces(s[1..]);
        assert ([s[0]] + rest)[1..] == rest;
        [s[0]] + rest
  }

  /** Removing spaces from a string that has none changes nothing. */
  lemma {:induction false} RemoveSpacesIdentity(s: string)
    requires ' ' !in s
    ensures RemoveSpaces(s) == s
  {
    if s != [] {
      RemoveSpacesIdentity(s[1..]);
    }
  }

  /** A string without spaces contains no ", ". */
  lemma NoSpaceNoSeparator(s: string)
    requires ' ' !in s
    ensures NoSeparator(s)
  {
    forall i | 0 <= i < |s| - 1 ensures !(s[i] == ',' && s[i + 1] == ' ') {
      assert s[i + 1] in s;
    }
  }

  // ---------------------------------------------------------------------
  // Python 2 `int()` on a byte string, base 10

  /** The bytes C's `isspace` accepts: the characters `int()` skips around
      a number. */
  const Whitespace: set<char> := {' ', '\t', '\n', '\r', '\U{B}', '\U{C}'}

  predicate IsSpace(c: char) {
    c in Whitespace
  }

  predicate IsDigit(c: char) {
    '0' <= c <= '9'
  }

  predicate AllDigits(s: string) {
    |s| > 0 && forall i :: 0 <= i < |s| ==> IsDigit(s[i])
  }

  function StripLeft(s: string): (r: string)
    ensures |r| <= |s| && (r == [] || !IsSpace(r[0]))
  {
    if |s| > 0 && IsSpace(s[0]) then StripLeft(s[1..]) else s
  }

  function StripRight(s: string): (r: string)
    ensures |r| <= |s| && (r == [] || !IsSpace(r[|r| - 1]))
  {
    if |s| > 0 && IsSpace(s[|s| - 1]) then StripRight(s[..|s| - 1]) else s
  }

  /** The value of a run of decimal digits, most significant first. */
  function DigitsValue(s: string): nat
    requires forall i :: 0 <= i < |s| ==> IsDigit(s[i])
  {
    if s == [] then 0
    else
      assert IsDigit(s[|s| - 1]);
      DigitsValue(s[..|s| - 1]) * 10 + (s[|s| - 1] as int - '0' as int)
  }

  /** `int(s)`: optional whitespace, an optional sign, optional whitespace,
      at least one digit, optional whitespace; anything else is a ValueError
      (None). `ParseIntAccepts` and `ParseIntReads` state what it accepts
      and the value it gives. */
  function ParseInt(s: string): Option<int> {
    ReadSigned(StripRight(StripLeft(s)))
  }

  /** The stripped text: a sign, whitespace and digits, or digits alone. */
  function ReadSigned(t: string): Option<int> {
    if |t| > 0 && IsSign(t[0]) then Signed(t[0] == '-', ReadDigits(StripLeft(t[1..])))
    else ReadDigits(t)
  }

  /** A run of digits read as its value; anything else is None. */
  function ReadDigits(d: string): Option<nat> {
    if AllDigits(d) then Some(DigitsValue(d)) else None
  }

  /** A magnitude, negated after '-'. */
  function Signed(negative: bool, m: Option<nat>): Option<int> {
    match m
    case None => None
    case Some(v) => Some(if negative then -(v as int) else v)
  }

  predicate AllSpace(w: string) {
    forall i :: 0 <= i < |w| ==> IsSpace(w[i])
  }

  predicate IsSign(c: char) {
    c == '+' || c == '-'
  }

  /** `s` is whitespace up to `i`, then either digits straight away (`k == i`)
      or a sign at `i` followed by whitespace up to `k`, then the digits
      `s[k..l]`, then whitespace to the end. */
  predicate IntSyntaxAt(s: string, i: nat, k: nat, l: nat) {
    && i <= k < l <= |s|
    && AllSpace(s[..i])
    && (k == i || (IsSign(s[i]) && AllSpace(s[i + 1..k])))
    && AllDigits(s[k..l])
    && AllSpace(s[l..])
  }

  /** The strings `int()` accepts in base 10. */
  ghost predicate IntSyntax(s: string) {
    exists i: nat, k: nat, l: nat :: IntSyntaxAt(s, i, k, l)
  }

  lemma {:induction false} StripLeftSuffix(s: string)
    ensures StripLeft(s) == s[|s| - |StripLeft(s)|..] && AllSpace(s[..|s| - |StripLeft(s)|])
  {
    if |s| > 0 && IsSpace(s[0]) {
      StripLeftSuffix(s[1..]);
      var n := |s| - |StripLeft(s)|;
      assert s[1..][n - 1..] == s[n..];
      assert s[..n] == [s[0]] + s[1..][..n - 1];
    }
  }

  lemma {:induction false} StripRightPrefix(s: string)
    ensures StripRight(s) == s[..|StripRight(s)|] && AllSpace(s[|StripRight(s)|..])
  {
    if |s| > 0 && IsSpace(s[|s| - 1]) {
      var u := s[..|s| - 1];
      StripRightPrefix(u);
      var n := |StripRight(s)|;
      assert u[..n] == s[..n];
      assert s[n..] == u[n..] + [s[|s| - 1]];
    }
  }

  /** Stripping leading whitespace from a string that is whitespace up to
      `i` and not whitespace at `i` leaves the string from `i` on. */
  lemma {:induction false} StripLeftFrom(s: string, i: nat)
    requires i <= |s| && AllSpace(s[..i]) && (i == |s| || !IsSpace(s[i]))
    ensures StripLeft(s) == s[i..]
  {
    if i > 0 {
      assert s[..i][0] == s[0];
      assert s[1..][..i - 1] == s[..i][1..];
      StripLeftFrom(s[1..], i - 1);
      assert s[1..][i - 1..] == s[i..];
    }
  }

  /** Stripping trailing whitespace from a string that is whitespace from
      `l` on and not whitespace just before `l` leaves the string up to `l`. */
  lemma {:induction false} StripRightTo(s: string, l: nat)
    requires l <= |s| && AllSpace(s[l..]) && (l == 0 || !IsSpace(s[l - 1]))
    ensures StripRight(s) == s[..l]
    decreases |s| - l
  {
    if l < |s| {
      var u := s[..|s| - 1];
      assert s[l..][|s| - 1 - l] == s[|s| - 1];
      assert forall j :: 0 <= j < |u| - l ==> u[l..][j] == s[l..][j];
      StripRightTo(u, l);
      assert u[..l] == s[..l];
    }
  }

  /** Stripping whitespace from both ends leaves what lies between the
      whitespace prefix and the whitespace suffix. */
  lemma StrippedBetween(s: string, i: nat, l: nat)
    requires i < l <= |s| && AllSpace(s[..i]) && AllSpace(s[l..])
    requires !IsSpace(s[i]) && !IsSpace(s[l - 1])
    ensures StripRight(StripLeft(s)) == s[i..l]
  {
    StripLeftFrom(s, i);
    var r := s[i..];
    assert r[l - i..] == s[l..] && r[l - i - 1] == s[l - 1];
    StripRightTo(r, l - i);
    assert r[..l - i] == s[i..l];
  }

  lemma ParseIntAt(s: string, i: nat, k: nat, l: nat)
    requires IntSyntaxAt(s, i, k, l)
    ensures ParseInt(s) == Some(if k > i && s[i] == '-' then -(DigitsValue(s[k..l]) as int) else DigitsValue(s[k..l]))
  {
    StrippedAt(s, i, k, l);
    ReadAt(s, i, k, l);
  }

  /** Stripping an integer field leaves the sign and digits between its
      surrounding whitespace. */
  lemma StrippedAt(s: string, i: nat, k: nat, l: nat)
    requires IntSyntaxAt(s, i, k, l)
    ensures StripRight(StripLeft(s)) == s[i..l]
  {
    assert s[k..l][0] == s[k] && s[k..l][l - k - 1] == s[l - 1];
    StrippedBetween(s, i, l);
  }

  /** The sign and digits of an integer field read as its value. */
  lemma ReadAt(s: string, i: nat, k: nat, l: nat)
    requires IntSyntaxAt(s, i, k, l)
    ensures ReadSigned(s[i..l]) == Some(if k > i && s[i] == '-' then -(DigitsValue(s[k..l]) as int) else DigitsValue(s[k..l]))
  {
    var t := s[i..l];
    if k > i {
      AfterSign(s, i, k, l);
      ReadSignThenDigits(t, s[k..l]);
    } else {
      assert t == s[k..l];
      ReadUnsignedDigits(t);
    }
  }

  /** After the sign, stripping the whitespace leaves the digits. */
  lemma AfterSign(s: string, i: nat, k: nat, l: nat)
    requires IntSyntaxAt(s, i, k, l) && k > i
    ensures |s[i..l]| > 0 && s[i..l][0] == s[i] && StripLeft(s[i..l][1..]) == s[k..l]
  {
    var u := s[i + 1..l];
    assert s[i..l][1..] == u;
    assert u[..k - i - 1] == s[i + 1..k];
    assert u[k - i - 1] == s[k] && s[k..l][0] == s[k];
    StripLeftFrom(u, k - i - 1);
    assert u[k - i - 1..] == s[k..l];
  }

  /** Digits alone read as their value. */
  lemma ReadUnsignedDigits(d: string)
    requires AllDigits(d)
    ensures ReadSigned(d) == Some(DigitsValue(d))
  {
    assert !IsSign(d[0]);
  }

  /** A sign, then digits once the whitespace is stripped, read as the
      signed value. */
  lemma ReadSignThenDigits(t: string, d: string)
    requires |t| > 0 && IsSign(t[0]) && StripLeft(t[1..]) == d && AllDigits(d)
    ensures ReadSigned(t) == Some(if t[0] == '-' then -(DigitsValue(d) as int) else DigitsValue(d))
  {
  }

  /** The stripped text's shape, placed back inside its whitespace. */
  lemma ShapeFromStripped(s: string, i: nat, l: nat)
    requires i <= l <= |s| && AllSpace(s[..i]) && AllSpace(s[l..])
    requires ReadSigned(s[i..l]).Some?
    ensures IntSyntax(s)
  {
    var t := s[i..l];
    if |t| > 0 && IsSign(t[0]) {
      StripLeftSuffix(t[1..]);
      var d := StripLeft(t[1..]);
      var k := l - |d|;
      assert d == s[k..l];
      assert s[i + 1..k] == t[1..][..|t[1..]| - |d|];
      assert IntSyntaxAt(s, i, k, l);
    } else {
      assert IntSyntaxAt(s, i, i, l);
    }
  }

  /** Every string `int()` accepts has the shape `IntSyntax` describes. */
  lemma ParseIntShape(s: string)
    requires ParseInt(s).Some?
    ensures IntSyntax(s)
  {
    StripLeftSuffix(s);
    var left := StripLeft(s);
    var i := |s| - |left|;
    StripRightPrefix(left);
    var t := StripRight(left);
    var l := i + |t|;
    assert t == s[i..l];
    assert s[l..] == left[|t|..];
    ShapeFromStripped(s, i, l);
  }

  /** `int()` accepts exactly the strings of the shape `IntSyntax` describes. */
  lemma ParseIntAccepts(s: string)
    ensures ParseInt(s).Some? <==> IntSyntax(s)
  {
    if ParseInt(s).Some? {
      ParseIntShape(s);
    } else if IntSyntax(s) {
      var i: nat, k: nat, l: nat :| IntSyntaxAt(s, i, k, l);
      ParseIntAt(s, i, k, l);
    }
  }

  /** Leading zeros do not change the value of a run of digits. */
  lemma {:induction false} LeadingZeros(zeros: string, d: string)
    requires forall i :: 0 <= i < |zeros| ==> zeros[i] == '0'
    requires forall i :: 0 <= i < |d| ==> IsDigit(d[i])
    ensures DigitsValue(zeros + d) == DigitsValue(d)
    decreases |zeros| + |d|
  {
    if d == [] {
      assert zeros + d == zeros;
      if zeros != [] {
        assert zeros[..|zeros| - 1] + [] == zeros[..|zeros| - 1];
        LeadingZeros(zeros[..|zeros| - 1], []);
      }
    } else {
      assert (zeros + d)[..|zeros + d| - 1] == zeros + d[..|d| - 1];
      LeadingZeros(zeros, d[..|d| - 1]);
    }
  }

  /** Whitespace, digits, whitespace: the digits' value. */
  lemma ParseUnsigned(w: string, digits: string, w3: string)
    requires AllSpace(w) && AllSpace(w3) && AllDigits(digits)
    ensures ParseInt(w + digits + w3) == Some(DigitsValue(digits))
  {
    var s := w + digits + w3;
    var k := |w|;
    var l := k + |digits|;
    assert s[..k] == w && s[k..l] == digits && s[l..] == w3;
    assert IntSyntaxAt(s, k, k, l);
    ParseIntAt(s, k, k, l);
  }

  /** Whitespace, a sign, whitespace, digits, whitespace: the digits' value,
      negated after '-'. */
  lemma ParseSigned(w1: string, sign: char, w2: string, digits: string, w3: string)
    requires AllSpace(w1) && AllSpace(w2) && AllSpace(w3) && AllDigits(digits) && IsSign(sign)
    ensures ParseInt(w1 + [sign] + w2 + digits + w3) ==
      Some(if sign == '-' then -(DigitsValue(digits) as int) else DigitsValue(digits))
  {
    var s := w1 + [sign] + w2 + digits + w3;
    var i := |w1|;
    var k := i + 1 + |w2|;
    var l := k + |digits|;
    assert s[..i] == w1 && s[i] == sign && s[i + 1..k] == w2;
    assert s[k..l] == digits && s[l..] == w3;
    assert IntSyntaxAt(s, i, k, l);
    ParseIntAt(s, i, k, l);
  }

  /** `int()` reads leading whitespace, an optional sign, whitespace after
      it, leading zeros, the digits of `n` and trailing whitespace as n,
      negated after '-'. */
  lemma ParseIntReads(w1: string, sign: string, w2: string, zeros: string, n: nat, w3: string)
    requires AllSpace(w1) && AllSpace(w2) && AllSpace(w3)
    requires sign == "" || sign == "+" || sign == "-"
    requires forall i :: 0 <= i < |zeros| ==> zeros[i] == '0'
    ensures ParseInt(w1 + sign + w2 + zeros + ShowNat(n) + w3) == Some(if sign == "-" then -(n as int) else n)
  {
    PaddedDigits(zeros, n);
    if sign == "" {
      RegroupUnsigned(w1, w2, zeros + ShowNat(n), w3, zeros, ShowNat(n));
      ParseUnsigned(w1 + w2, zeros + ShowNat(n), w3);
    } else {
      RegroupSigned(w1, sign, w2, zeros, ShowNat(n), w3);
      ParseSigned(w1, sign[0], w2, zeros + ShowNat(n), w3);
    }
  }

  /** Leading zeros before the digits of `n` still read as `n`. */
  lemma PaddedDigits(zeros: string, n: nat)
    requires forall i :: 0 <= i < |zeros| ==> zeros[i] == '0'
    ensures AllDigits(zeros + ShowNat(n)) && DigitsValue(zeros + ShowNat(n)) == n
  {
    var digits := zeros + ShowNat(n);
    LeadingZeros(zeros, ShowNat(n));
    ShowNatValue(n);
    assert digits[|digits| - 1] == ShowNat(n)[|ShowNat(n)| - 1];
  }

  /** Without a sign, the two runs of whitespace join into one. */
  lemma RegroupUnsigned(w1: string, w2: string, digits: string, w3: string, zeros: string, shown: string)
    requires digits == zeros + shown && AllSpace(w1) && AllSpace(w2)
    ensures w1 + "" + w2 + zeros + shown + w3 == (w1 + w2) + digits + w3
    ensures AllSpace(w1 + w2)
  {
  }

  /** With a sign, the zeros and the digits form one run of digits. */
  lemma RegroupSigned(w1: string, sign: string, w2: string, zeros: string, shown: string, w3: string)
    requires |sign| == 1
    ensures w1 + sign + w2 + zeros + shown + w3 == w1 + [sign[0]] + w2 + (zeros + shown) + w3
  {
    assert sign == [sign[0]];
  }

  /** The decimal digits of `n`, most significant first, without leading zeros. */
  function ShowNat(n: nat): (r: string)
    ensures AllDigits(r)
  {
    var d := ['0' + (n % 10) as char];
    if n < 10 then d else ShowNat(n / 10) + d
  }

  /** `str(n)` for an integer. */
  function ShowInt(n: int): string {
    if n < 0 then "-" + ShowNat(-n) else ShowNat(n)
  }

  lemma {:induction false} ShowNatValue(n: nat)
    ensures DigitsValue(ShowNat(n)) == n
  {
    var s := ShowNat(n);
    if n >= 10 {
      ShowNatValue(n / 10);
      assert s[..|s| - 1] == ShowNat(n / 10);
    }
  }

  lemma {:induction false} NoSpaceStripLeft(s: string)
    requires forall i :: 0 <= i < |s| ==> !IsSpace(s[i])
    ensures StripLeft(s) == s
  {
  }

  lemma {:induction false} NoSpaceStripRight(s: string)
    requires forall i :: 0 <= i < |s| ==> !IsSpace(s[i])
    ensures StripRight(s) == s
  {
  }

  /** `int(str(n)) == n`. */
  lemma IntRoundTrip(n: int)
    ensures ParseInt(ShowInt(n)) == Some(n)
  {
    var s := ShowInt(n);
    var m := if n < 0 then -n else n;
    ShowNatValue(m);
    NoSpaceStripLeft(s);
    NoSpaceStripRight(s);
    if n < 0 {
      assert s[1..] == ShowNat(m);
      NoSpaceStripLeft(s[1..]);
    } else {
      assert s[0] != '-' && s[0] != '+';
    }
  }

  /** The text of an integer contains neither spaces nor ", ". */
  lemma ShowIntNoSpace(n: int)
    ensures ' ' !in ShowInt(n) && NoSeparator(ShowInt(n))
  {
    var s := ShowInt(n);
    assert forall i :: 0 <= i < |s| ==> s[i] != ' ';
    NoSpaceNoSeparator(s);
  }
}
