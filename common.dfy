/** Shared vocabulary of the model: Go's `(value, error)` returns, error
    wrapping, timestamps, `fmt`'s `%d`, `strings.Split`, `strings.TrimSpace`
    and the JSON codec that the keyrings use. */
module Common {

  /** A Go `(value, error)` return: exactly one of the two is meaningful. */
  datatype Outcome<T> = Ok(value: T) | Err(msg: string)

  /** A Go `error` result of a check: nil, or an error with its text. */
  datatype Check = Pass | Fail(msg: string)

  datatype Option<T> = None | Some(value: T)

  /** `fmt.Errorf(context + ": %w", err).Error()`. `slogerr.With` attaches
      attributes but keeps the text of the error it wraps. */
  function Wrap(context: string, cause: string): string
  {
    context + ": " + cause
  }

  /** Instants are whole seconds counted from Go's zero `time.Time`
      (January 1, year 1, UTC), so `time.Time{}.IsZero()` is `t == ZeroTime`.
      Durations are whole seconds. */
  type Time = int
  const ZeroTime: Time := 0

  /** A keyring entry is addressed by (service, key). */
  type Slot = (string, string)

  /** Text of an error reported by the OS keyring itself; its exact wording
      belongs to the platform library and is not part of this model. */
  const BackendFailure := "keyring backend failure"

  // ---------------------------------------------------------------------
  // fmt's %d

  function DigitChar(d: nat): (c: char)
    requires d < 10
    ensures '0' <= c <= '9'
    ensures c as int - '0' as int == d
  {
    "0123456789"[d]
  }

  predicate IsDigit(c: char)
  {
    '0' <= c <= '9'
  }

  /** Decimal digits of a natural number, most significant first. */
  function NatDecimal(n: nat): (s: string)
    ensures |s| >= 1
    ensures forall i :: 0 <= i < |s| ==> IsDigit(s[i])
    ensures n < 10 <==> |s| == 1
  {
    if n < 10 then [DigitChar(n)] else NatDecimal(n / 10) + [DigitChar(n % 10)]
  }

  /** `fmt.Sprintf("%d", n)`. */
  function Decimal(n: int): (s: string)
    ensures |s| >= 1
    ensures '/' !in s
  {
    if n < 0 then "-" + NatDecimal(-n) else NatDecimal(n)
  }

  lemma {:induction false} NatDecimalInjective(a: nat, b: nat)
    requires NatDecimal(a) == NatDecimal(b)
    ensures a == b
  {
    var sa, sb := NatDecimal(a), NatDecimal(b);
    if a < 10 || b < 10 {
      assert |sa| == 1 && |sb| == 1;
      assert a < 10 && b < 10;
      assert sa[0] as int - '0' as int == a;
    } else {
      assert sa == NatDecimal(a / 10) + [DigitChar(a % 10)];
      assert sb == NatDecimal(b / 10) + [DigitChar(b % 10)];
      assert sa[..|sa| - 1] == NatDecimal(a / 10);
      assert sb[..|sb| - 1] == NatDecimal(b / 10);
      NatDecimalInjective(a / 10, b / 10);
      assert DigitChar(a % 10) == sa[|sa| - 1] == DigitChar(b % 10);
    }
  }

  /** Distinct integers print differently. */
  lemma DecimalInjective(a: int, b: int)
    requires Decimal(a) == Decimal(b)
    ensures a == b
  {
    DecimalSign(a);
    DecimalSign(b);
    if a < 0 {
      assert Decimal(a)[1..] == NatDecimal(-a);
      assert Decimal(b)[1..] == NatDecimal(-b);
      NatDecimalInjective(-a, -b);
    } else {
      NatDecimalInjective(a, b);
    }
  }

  /** Only negative numbers print with a leading '-'. */
  lemma DecimalSign(n: int)
    ensures Decimal(n)[0] == '-' <==> n < 0
  {
    if n >= 0 {
      assert IsDigit(NatDecimal(n)[0]);
    }
  }

  // ---------------------------------------------------------------------
  // Separated strings

  /** Position of the last `c` in `w`, or -1 when there is none. */
  function LastIndex(w: string, c: char): (i: int)
    ensures -1 <= i < |w|
    ensures 0 <= i ==> w[i] == c
    ensures forall j :: i < j < |w| ==> w[j] != c
  {
    if |w| == 0 then -1
    else if w[|w| - 1] == c then |w| - 1
    else LastIndex(w[..|w| - 1], c)
  }

  /** The '/' written between a prefix and a '/'-free suffix is the last one. */
  lemma {:induction false} LastSlashAfterPrefix(p: string, s: string)
    requires '/' !in s
    ensures LastIndex(p + "/" + s, '/') == |p|
    decreases |s|
  {
    var w := p + "/" + s;
    if |s| > 0 {
      assert w[|w| - 1] == s[|s| - 1];
      assert w[..|w| - 1] == p + "/" + s[..|s| - 1];
      LastSlashAfterPrefix(p, s[..|s| - 1]);
    }
  }

  /** Two strings whose last '/' separates a prefix from a '/'-free suffix
      are equal only if both parts are. */
  lemma SplitAtLastSlash(p1: string, s1: string, p2: string, s2: string)
    requires '/' !in s1 && '/' !in s2
    requires p1 + "/" + s1 == p2 + "/" + s2
    ensures p1 == p2 && s1 == s2
  {
    var w := p1 + "/" + s1;
    LastSlashAfterPrefix(p1, s1);
    LastSlashAfterPrefix(p2, s2);
    assert p1 == w[..|p1|] == p2;
    assert s1 == w[|p1| + 1..] == s2;
  }

  /** `strings.Split(s, string(sep))`: the pieces between separators, at
      least one, none containing the separator. */
  function Split(s: string, sep: char): (parts: seq<string>)
    ensures |parts| >= 1
    ensures forall i :: 0 <= i < |parts| ==> sep !in parts[i]
    decreases |s|
  {
    if |s| == 0 then [""]
    else
      var rest := Split(s[1..], sep);
      if s[0] == sep then [""] + rest
      else [[s[0]] + rest[0]] + rest[1..]
  }

  /** A string without the separator is a single piece. */
  lemma {:induction false} SplitWhole(s: string, sep: char)
    requires sep !in s
    ensures Split(s, sep) == [s]
    decreases |s|
  {
    if |s| > 0 {
      SplitWhole(s[1..], sep);
      assert [s[0]] + s[1..] == s;
    }
  }

  /** `strings.Join(parts, string(sep))`. */
  function JoinWith(parts: seq<string>, sep: char): string
    requires |parts| >= 1
  {
    if |parts| == 1 then parts[0] else parts[0] + [sep] + JoinWith(parts[1..], sep)
  }

  /** Splitting loses nothing: joining the pieces back gives the input. */
  lemma {:induction false} JoinSplit(s: string, sep: char)
    ensures JoinWith(Split(s, sep), sep) == s
    decreases |s|
  {
    if |s| > 0 {
      var rest := Split(s[1..], sep);
      JoinSplit(s[1..], sep);
      if s[0] == sep {
        assert Split(s, sep) == [""] + rest;
        assert JoinWith([""] + rest, sep) == "" + [sep] + JoinWith(rest, sep);
        assert s == [s[0]] + s[1..];
      } else {
        var parts := Split(s, sep);
        assert parts == [[s[0]] + rest[0]] + rest[1..];
        if |rest| == 1 {
          assert JoinWith(parts, sep) == [s[0]] + rest[0];
        } else {
          assert parts[1..] == rest[1..];
          assert JoinWith(parts, sep) == [s[0]] + rest[0] + [sep] + JoinWith(rest[1..], sep);
        }
        assert s == [s[0]] + s[1..];
      }
    }
  }

  /** A first piece without the separator comes back as the first piece. */
  lemma {:induction false} SplitAfterPiece(a: string, b: string, sep: char)
    requires sep !in a
    ensures Split(a + [sep] + b, sep) == [a] + Split(b, sep)
    decreases |a|
  {
    var s := a + [sep] + b;
    if |a| == 0 {
      assert s[0] == sep && s[1..] == b;
    } else {
      assert s[0] == a[0] && s[1..] == a[1..] + [sep] + b;
      SplitAfterPiece(a[1..], b, sep);
      assert [a[0]] + a[1..] == a;
    }
  }

  /** Joining pieces that do not contain the separator and splitting again
      gives the pieces back. */
  lemma {:induction false} SplitJoin(parts: seq<string>, sep: char)
    requires |parts| >= 1
    requires forall i :: 0 <= i < |parts| ==> sep !in parts[i]
    ensures Split(JoinWith(parts, sep), sep) == parts
    decreases |parts|
  {
    if |parts| == 1 {
      SplitWhole(parts[0], sep);
    } else {
      SplitAfterPiece(parts[0], JoinWith(parts[1..], sep), sep);
      SplitJoin(parts[1..], sep);
      assert [parts[0]] + parts[1..] == parts;
    }
  }

  // ---------------------------------------------------------------------
  // strings.TrimSpace

  /** `unicode.IsSpace`. */
  predicate IsSpace(c: char)
  {
    c == ' ' || c == '\t' || c == '\n' || c == '\U{000B}' || c == '\U{000C}' || c == '\r'
    || c == '\U{0085}' || c == '\U{00A0}' || c == '\U{1680}'
    || ('\U{2000}' <= c <= '\U{200A}')
    || c == '\U{2028}' || c == '\U{2029}' || c == '\U{202F}' || c == '\U{205F}' || c == '\U{3000}'
  }

  function TrimLeftSpace(s: string): (r: string)
    ensures |r| <= |s| && r == s[|s| - |r|..]
    ensures r == [] || !IsSpace(r[0])
    ensures forall i :: 0 <= i < |s| - |r| ==> IsSpace(s[i])
  {
    if |s| > 0 && IsSpace(s[0]) then TrimLeftSpace(s[1..]) else s
  }

  function TrimRightSpace(s: string): (r: string)
    ensures |r| <= |s| && r == s[..|r|]
    ensures r == [] || !IsSpace(r[|r| - 1])
    ensures forall i :: |r| <= i < |s| ==> IsSpace(s[i])
  {
    if |s| > 0 && IsSpace(s[|s| - 1]) then TrimRightSpace(s[..|s| - 1]) else s
  }

  /** `strings.TrimSpace`: the longest infix of `s` that neither starts nor
      ends with white space; everything cut off is white space. */
  function TrimSpace(s: string): (r: string)
    ensures exists i :: TrimmedAt(s, r, i)
    ensures r == [] || (!IsSpace(r[0]) && !IsSpace(r[|r| - 1]))
  {
    var left := TrimLeftSpace(s);
    var r := TrimRightSpace(left);
    TrimBothEnds(s, left, r, |s| - |left|);
    r
  }

  /** Cutting white space off the front and then off the back of what is
      left cuts it off both ends of the original. */
  lemma TrimBothEnds(s: string, left: string, r: string, i: int)
    requires 0 <= i <= |s| && left == s[i..]
    requires |r| <= |left| && r == left[..|r|]
    requires forall j :: 0 <= j < i ==> IsSpace(s[j])
    requires forall j :: |r| <= j < |left| ==> IsSpace(left[j])
    ensures TrimmedAt(s, r, i)
  {
    assert r == s[i..i + |r|];
    forall j | i + |r| <= j < |s|
      ensures IsSpace(s[j])
    {
      assert s[j] == left[j - i];
    }
  }

  /** `r` is `s` with white space, and only white space, cut off from
      before position `i` and after position `i + |r|`. */
  ghost predicate TrimmedAt(s: string, r: string, i: int)
  {
    && 0 <= i <= |s| - |r|
    && r == s[i..i + |r|]
    && (forall j :: 0 <= j < i ==> IsSpace(s[j]))
    && (forall j :: i + |r| <= j < |s| ==> IsSpace(s[j]))
  }

  // ---------------------------------------------------------------------
  // JSON

  /** `json.Marshal` / `json.Unmarshal` for one record type, left abstract:
      encoding never fails, and decoding may reject a string (`None`) or
      produce any record at all from text that was not written by `encode`. */
  datatype Codec<!T> = Codec(encode: T -> string, decode: string -> Option<T>)

  /** What both keyrings rely on: a written record reads back unchanged. */
  ghost predicate RoundTrips<T(!new)>(c: Codec<T>)
  {
    forall t :: c.decode(c.encode(t)) == Some(t)
  }
}
