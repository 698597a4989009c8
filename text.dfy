/** String helpers shared by the modules: JavaScript's startsWith, includes, split, join,
    trim, toLowerCase/toUpperCase (ASCII letters only) and integer-to-decimal conversion. */
module Text {

  /** `s.startsWith(prefix)` */
  predicate StartsWith(s: string, prefix: string) {
    |prefix| <= |s| && s[..|prefix|] == prefix
  }

  /** A prefix of a prefix is a prefix. */
  lemma PrefixOfPrefix(s: string, p: string, q: string)
    requires StartsWith(s, p) && StartsWith(p, q)
    ensures StartsWith(s, q)
  {
    assert s[..|q|] == s[..|p|][..|q|];
  }

  /** One differing character rules a prefix out. */
  lemma DiffersAt(s: string, prefix: string, k: nat)
    requires k < |prefix| && k < |s| && s[k] != prefix[k]
    ensures !StartsWith(s, prefix)
  {
    assert |prefix| <= |s| ==> s[..|prefix|][k] == s[k];
  }

  /** `s.includes(part)`: some suffix of `s` starts with `part`. */
  predicate Contains(s: string, part: string)
    decreases |s|
  {
    StartsWith(s, part) || (|s| > 0 && Contains(s[1..], part))
  }

  lemma {:induction false} ContainsAt(s: string, part: string, k: nat)
    requires k + |part| <= |s| && s[k..k + |part|] == part
    ensures Contains(s, part)
    decreases k
  {
    if k > 0 {
      assert s[1..][k - 1..k - 1 + |part|] == s[k..k + |part|];
      ContainsAt(s[1..], part, k - 1);
    }
  }

  lemma {:induction false} ContainsWitness(s: string, part: string) returns (k: nat)
    requires Contains(s, part)
    ensures k + |part| <= |s| && s[k..k + |part|] == part
    decreases |s|
  {
    if StartsWith(s, part) {
      k := 0;
    } else {
      var j := ContainsWitness(s[1..], part);
      assert s[1..][j..j + |part|] == s[j + 1..j + 1 + |part|];
      k := j + 1;
    }
  }

  /** The count of a value in a sequence split after its first element. */
  lemma CountSplit<T>(whole: seq<T>, front: T, rest: seq<T>, x: T)
    requires whole == [front] + rest
    ensures multiset(whole)[x] == (if front == x then 1 else 0) + multiset(rest)[x]
  {
  }

  /** JavaScript's `%`: the remainder takes the sign of the dividend. */
  function JsRem(a: int, b: int): (r: int)
    requires b > 0
    ensures a >= 0 ==> r == a % b
    ensures -b < r < b
  {
    if a >= 0 then a % b else -((-a) % b)
  }

  predicate IsDigit(c: char) {
    '0' <= c <= '9'
  }

  function DigitChar(d: nat): (c: char)
    requires d < 10
    ensures IsDigit(c) && c as int - '0' as int == d
  {
    (d + '0' as int) as char
  }

  /** Decimal digits of `n`, most significant first, no leading zeros. */
  function NatToString(n: nat): (s: string)
    ensures |s| >= 1 && (|s| > 1 ==> s[0] != '0')
    ensures forall i :: 0 <= i < |s| ==> IsDigit(s[i])
  {
    if n < 10 then [DigitChar(n)] else NatToString(n / 10) + [DigitChar(n % 10)]
  }

  function DigitValue(c: char): nat
    requires IsDigit(c)
  {
    c as int - '0' as int
  }

  /** The value of a string of decimal digits. */
  function ParseNat(s: string): nat
    requires forall i :: 0 <= i < |s| ==> IsDigit(s[i])
  {
    if |s| == 0 then 0 else ParseNat(s[..|s| - 1]) * 10 + DigitValue(s[|s| - 1])
  }

  lemma {:induction false} ParseNatToString(n: nat)
    ensures ParseNat(NatToString(n)) == n
  {
    if n >= 10 {
      var s := NatToString(n);
      assert s[..|s| - 1] == NatToString(n / 10);
      ParseNatToString(n / 10);
    }
  }

  /** JavaScript's `${n}` for an integer-valued number. */
  function IntToString(n: int): string {
    if n < 0 then "-" + NatToString(-n) else NatToString(n)
  }

  /** Reading back the decimal form: the sign and the digits give `n` again. */
  lemma IntToStringRoundTrip(n: int)
    ensures var s := IntToString(n);
      if n < 0 then |s| > 1 && s[0] == '-' && s[1..] == NatToString(-n) && ParseNat(s[1..]) == -n
      else |s| > 0 && IsDigit(s[0]) && ParseNat(s) == n
  {
    if n < 0 {
      assert IntToString(n)[1..] == NatToString(-n);
      ParseNatToString(-n);
    } else {
      ParseNatToString(n);
    }
  }

  lemma IntToStringInjective(a: int, b: int)
    requires IntToString(a) == IntToString(b)
    ensures a == b
  {
    IntToStringRoundTrip(a);
    IntToStringRoundTrip(b);
  }

  /** The characters `String.prototype.trim` removes: ASCII white space, the line terminators,
      the byte-order mark and the Unicode space separators (no-break space, ogham space mark,
      the en quad to hair space block, narrow no-break, medium mathematical and ideographic
      space). */
  predicate IsSpace(c: char) {
    c == ' ' || c == '\t' || c == '\n' || c == '\r' || c == '\U{000B}' || c == '\U{000C}'
    || c == '\U{00A0}' || c == '\U{FEFF}' || c == '\U{2028}' || c == '\U{2029}'
    || c == '\U{1680}' || ('\U{2000}' <= c <= '\U{200A}') || c == '\U{202F}' || c == '\U{205F}'
    || c == '\U{3000}'
  }

  function TrimStart(s: string): (r: string)
    ensures |r| <= |s| && r == s[|s| - |r|..]
    ensures |r| > 0 ==> !IsSpace(r[0])
    ensures forall i :: 0 <= i < |s| - |r| ==> IsSpace(s[i])
  {
    if |s| > 0 && IsSpace(s[0]) then TrimStart(s[1..]) else s
  }

  function TrimEnd(s: string): (r: string)
    ensures |r| <= |s| && r == s[..|r|]
    ensures |r| > 0 ==> !IsSpace(r[|r| - 1])
    ensures forall i :: |r| <= i < |s| ==> IsSpace(s[i])
  {
    if |s| > 0 && IsSpace(s[|s| - 1]) then TrimEnd(s[..|s| - 1]) else s
  }

  /** `s.trim()` */
  function Trim(s: string): string {
    TrimEnd(TrimStart(s))
  }

  predicate IsBlank(s: string) {
    forall i :: 0 <= i < |s| ==> IsSpace(s[i])
  }

  lemma {:induction false} TrimStartBlank(s: string)
    requires IsBlank(s)
    ensures TrimStart(s) == ""
  {
    if |s| > 0 {
      TrimStartBlank(s[1..]);
    }
  }

  lemma {:induction false} TrimEndKeepsNonSpace(s: string)
    requires |s| > 0 && !IsSpace(s[0])
    ensures |TrimEnd(s)| > 0
  {
    if IsSpace(s[|s| - 1]) {
      TrimEndKeepsNonSpace(s[..|s| - 1]);
    }
  }

  /** `s.trim()` is empty exactly for strings made of white space only. */
  lemma TrimEmptyIffBlank(s: string)
    ensures Trim(s) == "" <==> IsBlank(s)
  {
    if IsBlank(s) {
      TrimStartBlank(s);
    } else {
      var a := TrimStart(s);
      TrimEndKeepsNonSpace(a);
    }
  }

  function LowerChar(c: char): char {
    if 'A' <= c <= 'Z' then (c as int + 32) as char else c
  }

  function UpperChar(c: char): char {
    if 'a' <= c <= 'z' then (c as int - 32) as char else c
  }

  /** `s.toLowerCase()` on ASCII letters. */
  function Lower(s: string): (r: string)
    ensures |r| == |s| && forall i :: 0 <= i < |s| ==> r[i] == LowerChar(s[i])
  {
    seq(|s|, i requires 0 <= i < |s| => LowerChar(s[i]))
  }

  /** `s.toUpperCase()` on ASCII letters. */
  function Upper(s: string): (r: string)
    ensures |r| == |s| && forall i :: 0 <= i < |s| ==> r[i] == UpperChar(s[i])
  {
    seq(|s|, i requires 0 <= i < |s| => UpperChar(s[i]))
  }

  /** `s.split(sep)` for a one-character separator. */
  function Split(s: string, sep: char): (parts: seq<string>)
    ensures |parts| >= 1
  {
    if |s| == 0 then [""]
    else
      var rest := Split(s[1..], sep);
      if s[0] == sep then [""] + rest else [[s[0]] + rest[0]] + rest[1..]
  }

  /** No piece of a split contains the separator. */
  lemma {:induction false} SplitPiecesFree(s: string, sep: char)
    ensures forall k, i :: 0 <= k < |Split(s, sep)| && 0 <= i < |Split(s, sep)[k]| ==> Split(s, sep)[k][i] != sep
  {
    if |s| > 0 {
      SplitPiecesFree(s[1..], sep);
    }
  }

  /** `parts.join(sep)` */
  function Join(parts: seq<string>, sep: char): string {
    if |parts| == 0 then ""
    else if |parts| == 1 then parts[0]
    else parts[0] + [sep] + Join(parts[1..], sep)
  }

  /** Splitting and joining again gives back the string. */
  lemma {:induction false} JoinSplit(s: string, sep: char)
    ensures Join(Split(s, sep), sep) == s
  {
    if |s| > 0 {
      var rest := Split(s[1..], sep);
      JoinSplit(s[1..], sep);
      if s[0] == sep {
        assert Split(s, sep) == [""] + rest;
        assert Join([""] + rest, sep) == "" + [sep] + Join(rest, sep);
      } else if |rest| == 1 {
        assert [s[0]] + rest[0] == s;
      } else {
        var parts := Split(s, sep);
        assert parts[1..] == rest[1..];
        assert Join(parts, sep) == [s[0]] + rest[0] + [sep] + Join(rest[1..], sep);
        assert s == [s[0]] + s[1..];
      }
    }
  }

  /** A string without the separator splits into itself. */
  lemma {:induction false} SplitNoSeparator(s: string, sep: char)
    requires forall i :: 0 <= i < |s| ==> s[i] != sep
    ensures Split(s, sep) == [s]
  {
    if |s| > 0 {
      SplitNoSeparator(s[1..], sep);
      assert [s[0]] + s[1..] == s;
    }
  }

  /** The first piece of a split is everything before the first separator. */
  lemma {:induction false} FirstPiece(x: string, rest: string, sep: char)
    requires forall i :: 0 <= i < |x| ==> x[i] != sep
    ensures Split(x + [sep] + rest, sep)[0] == x
  {
    if |x| > 0 {
      assert (x + [sep] + rest)[1..] == x[1..] + [sep] + rest;
      FirstPiece(x[1..], rest, sep);
      assert [x[0]] + x[1..] == x;
    } else {
      assert x + [sep] + rest == [sep] + rest;
    }
  }

  /** The equation of SplitAppend, for one `x`. */
  ghost predicate SplitsAppended(x: string, y: string, sep: char) {
    var px, py := Split(x, sep), Split(y, sep);
    Split(x + y, sep) == px[..|px| - 1] + [px[|px| - 1] + py[0]] + py[1..]
  }

  /** Splitting a concatenation: the last piece of `x` is glued to the first piece of `y`. */
  lemma {:induction false} SplitAppend(x: string, y: string, sep: char)
    ensures SplitsAppended(x, y, sep)
  {
    var py := Split(y, sep);
    if |x| == 0 {
      assert x + y == y;
      assert Split(x, sep) == [""];
      assert "" + py[0] == py[0];
      assert py == [py[0]] + py[1..];
    } else {
      SplitAppend(x[1..], y, sep);
      if x[0] == sep {
        SplitAppendSep(x, y, sep);
      } else if |Split(x[1..], sep)| == 1 {
        SplitAppendShort(x, y, sep);
      } else {
        SplitAppendLong(x, y, sep);
      }
    }
  }

  lemma SplitAppendSep(x: string, y: string, sep: char)
    requires |x| > 0 && x[0] == sep && SplitsAppended(x[1..], y, sep)
    ensures SplitsAppended(x, y, sep)
  {
    assert (x + y)[1..] == x[1..] + y;
    assert (x + y)[0] == sep;
    var px', py := Split(x[1..], sep), Split(y, sep);
    var n' := |px'|;
    var rest := Split(x[1..] + y, sep);
    assert rest == px'[..n' - 1] + [px'[n' - 1] + py[0]] + py[1..];
    assert Split(x + y, sep) == [""] + rest;
    var px := Split(x, sep);
    assert px == [""] + px';
    assert px[..|px| - 1] == [""] + px'[..n' - 1];
    assert px[|px| - 1] == px'[n' - 1];
  }

  lemma SplitAppendShort(x: string, y: string, sep: char)
    requires |x| > 0 && x[0] != sep && |Split(x[1..], sep)| == 1 && SplitsAppended(x[1..], y, sep)
    ensures SplitsAppended(x, y, sep)
  {
    var c := x[0];
    assert (x + y)[1..] == x[1..] + y;
    assert (x + y)[0] == c;
    var px', py := Split(x[1..], sep), Split(y, sep);
    var rest := Split(x[1..] + y, sep);
    assert rest == [px'[0] + py[0]] + py[1..];
    assert Split(x + y, sep) == [[c] + rest[0]] + rest[1..];
    assert Split(x, sep) == [[c] + px'[0]];
    assert [c] + (px'[0] + py[0]) == ([c] + px'[0]) + py[0];
  }

  lemma SplitAppendLong(x: string, y: string, sep: char)
    requires |x| > 0 && x[0] != sep && |Split(x[1..], sep)| > 1 && SplitsAppended(x[1..], y, sep)
    ensures SplitsAppended(x, y, sep)
  {
    var c := x[0];
    assert (x + y)[1..] == x[1..] + y;
    assert (x + y)[0] == c;
    var px', py := Split(x[1..], sep), Split(y, sep);
    var n' := |px'|;
    var rest := Split(x[1..] + y, sep);
    assert rest == px'[..n' - 1] + [px'[n' - 1] + py[0]] + py[1..];
    assert Split(x + y, sep) == [[c] + rest[0]] + rest[1..];
    var px := Split(x, sep);
    assert px == [[c] + px'[0]] + px'[1..];
    assert rest[0] == px'[0];
    assert rest[1..] == px'[1..n' - 1] + [px'[n' - 1] + py[0]] + py[1..];
    assert px[..|px| - 1] == [[c] + px'[0]] + px'[1..n' - 1];
    assert px[|px| - 1] == px'[n' - 1];
  }

  /** Every character equal to `from` replaced by `to` (`s.replace(/from/g, to)`). */
  function ReplaceChar(s: string, from: char, to: char): (r: string)
    ensures |r| == |s|
    ensures forall i :: 0 <= i < |s| ==> r[i] == if s[i] == from then to else s[i]
  {
    seq(|s|, i requires 0 <= i < |s| => if s[i] == from then to else s[i])
  }
}
