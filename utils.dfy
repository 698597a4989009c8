/** String and value helpers (lib/utils.ts). */
module Utils {
  import opened Wrappers
  import opened Text

  /** `str.slice(0, n)`: a negative end counts back from the end of the string. */
  function SliceTo(s: string, n: int): (r: string)
    ensures r <= s
    ensures n >= 0 ==> |r| == if n < |s| then n else |s|
    ensures n < 0 ==> |r| == if |s| + n > 0 then |s| + n else 0
  {
    var end := if n < 0 then (if |s| + n > 0 then |s| + n else 0) else (if n < |s| then n else |s|);
    s[..end]
  }

  /** truncate (lines 70-73). */
  function Truncate(s: string, length: int): (r: string)
    ensures |s| <= length ==> r == s
    ensures |s| > length && length >= 0 ==> r == s[..length] + "..." && |r| == length + 3
    ensures |s| > length ==> StartsWith(r, SliceTo(s, length)) && |r| == |SliceTo(s, length)| + 3
  {
    if |s| <= length then s
    else
      var head := SliceTo(s, length);
      assert (head + "...")[..|head|] == head;
      head + "..."
  }

  /** capitalize (lines 138-140). */
  function Capitalize(s: string): (r: string)
    ensures |r| == |s|
    ensures |s| > 0 ==> r[0] == UpperChar(s[0]) && r[1..] == s[1..]
  {
    if |s| == 0 then "" else [UpperChar(s[0])] + s[1..]
  }

  /** `part[0]` for every part, an empty part contributing nothing to the join. */
  function FirstChars(parts: seq<string>): (r: string)
    ensures |r| <= |parts|
  {
    if |parts| == 0 then ""
    else (if |parts[0]| > 0 then [parts[0][0]] else "") + FirstChars(parts[1..])
  }

  /** getInitials (lines 114-121). */
  function GetInitials(name: string): (r: string)
    ensures |r| <= 2
  {
    SliceTo(Upper(FirstChars(Split(name, ' '))), 2)
  }

  /** Every initial is the upper-case first character of one of the name's parts, in order. */
  lemma {:induction false} FirstCharsOfParts(parts: seq<string>, i: nat)
    requires i < |FirstChars(parts)|
    ensures exists k :: 0 <= k < |parts| && |parts[k]| > 0 && FirstChars(parts)[i] == parts[k][0]
  {
    var head := if |parts[0]| > 0 then [parts[0][0]] else "";
    if i < |head| {
      assert FirstChars(parts)[i] == parts[0][0];
    } else {
      FirstCharsOfParts(parts[1..], i - |head|);
      var k :| 0 <= k < |parts[1..]| && |parts[1..][k]| > 0 && FirstChars(parts[1..])[i - |head|] == parts[1..][k][0];
      assert parts[k + 1] == parts[1..][k];
    }
  }

  /** Each of the (at most two) initials is the upper-cased first letter of a space-separated part. */
  lemma InitialsFromParts(name: string, i: nat)
    requires i < |GetInitials(name)|
    ensures exists k :: (0 <= k < |Split(name, ' ')| && |Split(name, ' ')[k]| > 0
                         && GetInitials(name)[i] == UpperChar(Split(name, ' ')[k][0]))
  {
    var parts := Split(name, ' ');
    FirstCharsOfParts(parts, i);
    var k :| 0 <= k < |parts| && |parts[k]| > 0 && FirstChars(parts)[i] == parts[k][0];
    assert GetInitials(name)[i] == Upper(FirstChars(parts))[i];
  }

  /** Two words give their two initials. */
  lemma InitialsOfTwoWords(first: string, last: string)
    requires |first| > 0 && |last| > 0 && ' ' !in first && ' ' !in last
    ensures GetInitials(first + " " + last) == [UpperChar(first[0]), UpperChar(last[0])]
  {
    TwoWords(first, last);
    var chars := FirstChars([first, last]);
    assert [first, last][1..] == [last];
    assert FirstChars([last]) == [last[0]] + FirstChars([last][1..]);
    assert chars == [first[0], last[0]];
    assert SliceTo(Upper(chars), 2) == Upper(chars);
  }

  lemma TwoWords(first: string, last: string)
    requires ' ' !in first && ' ' !in last
    ensures Split(first + " " + last, ' ') == [first, last]
  {
    var tail := " " + last;
    var px, py := Split(first, ' '), Split(tail, ' ');
    assert px == [first] by {
      SplitNoSeparator(first, ' ');
    }
    assert py == [""] + [last] by {
      SplitNoSeparator(last, ' ');
      assert tail[0] == ' ' && tail[1..] == last;
    }
    assert Split(first + tail, ' ') == px[..|px| - 1] + [px[|px| - 1] + py[0]] + py[1..] by {
      SplitAppend(first, tail, ' ');
    }
    assert px[..|px| - 1] == [] && px[|px| - 1] + py[0] == first && py[1..] == [last];
    assert first + " " + last == first + tail;
  }

  /** The kinds of value isEmpty distinguishes. An array has its `length` and its own keys,
      the indices that hold an element (fewer than `length` in a sparse array). */
  datatype JsValue = Null | Undefined | Str(s: string) | Number(n: int) | Boolean(b: bool)
                   | Array(length: nat, keyCount: nat) | Object(keyCount: nat)

  /** isEmpty (lines 92-98). */
  predicate IsEmpty(v: JsValue)
    ensures v.Number? || v.Boolean? ==> !IsEmpty(v)
    ensures v.Null? || v.Undefined? ==> IsEmpty(v)
  {
    match v
    case Null => true
    case Undefined => true
    case Str(s) => Trim(s) == ""
    case Array(n, keys) => n == 0 || keys == 0
    case Object(keys) => keys == 0
    case _ => false
  }

  /** Empty means absent, blank, or without elements or keys; numbers and booleans never are.
      An array that fails the length test is still an object, so a sparse array without any
      element passes the key test. */
  lemma IsEmptyCases(v: JsValue)
    ensures v.Null? || v.Undefined? ==> IsEmpty(v)
    ensures v.Str? ==> (IsEmpty(v) <==> IsBlank(v.s))
    ensures v.Number? || v.Boolean? ==> !IsEmpty(v)
    ensures v.Array? ==> (IsEmpty(v) <==> v.length == 0 || v.keyCount == 0)
    ensures v.Array? && v.keyCount == v.length ==> (IsEmpty(v) <==> v.length == 0)
    ensures v.Object? ==> (IsEmpty(v) <==> v.keyCount == 0)
  {
    if v.Str? {
      TrimEmptyIffBlank(v.s);
    }
  }

  /** The text formatRelativeTime picks (lines 50-65), from the millisecond difference; None
      where it falls back to the absolute date. */
  function RelativeTime(diffMs: int): (text: Option<string>)
    ensures diffMs < 60000 ==> text == Some("gerade eben")
    ensures text.None? <==> diffMs >= 604800000
  {
    UnitsCompose(diffMs);
    var sec := diffMs / 1000;
    var min := sec / 60;
    var hour := min / 60;
    var day := hour / 24;
    if sec < 60 then Some("gerade eben")
    else if min < 60 then Some("vor " + IntToString(min) + " Minute" + (if min > 1 then "n" else ""))
    else if hour < 24 then Some("vor " + IntToString(hour) + " Stunde" + (if hour > 1 then "n" else ""))
    else if day < 7 then Some("vor " + IntToString(day) + " Tag" + (if day > 1 then "en" else ""))
    else None
  }

  /** Floor division by 1000 and then by 60 is floor division by 60000, and so on up the units. */
  lemma UnitsCompose(diffMs: int)
    ensures diffMs / 1000 / 60 == diffMs / 60000
    ensures diffMs / 1000 / 60 / 60 == diffMs / 3600000
    ensures diffMs / 1000 / 60 / 60 / 24 == diffMs / 86400000
  {
    var sec := diffMs / 1000;
    assert diffMs == 1000 * sec + diffMs % 1000;
    var min := sec / 60;
    assert sec == 60 * min + sec % 60;
    assert diffMs == 60000 * min + (1000 * (sec % 60) + diffMs % 1000);
    var hour := min / 60;
    assert min == 60 * hour + min % 60;
    assert diffMs == 3600000 * hour + (60000 * (min % 60) + 1000 * (sec % 60) + diffMs % 1000);
    var day := hour / 24;
    assert hour == 24 * day + hour % 24;
    assert diffMs == 86400000 * day + (3600000 * (hour % 24) + 60000 * (min % 60) + 1000 * (sec % 60) + diffMs % 1000);
  }

  /** The buckets in milliseconds between a minute and a week: whole minutes, hours and days. */
  lemma RelativeTimeBuckets(diffMs: int)
    ensures 60000 <= diffMs < 3600000 ==> var n := diffMs / 60000;
      RelativeTime(diffMs) == Some("vor " + IntToString(n) + " Minute" + (if n > 1 then "n" else ""))
    ensures 3600000 <= diffMs < 86400000 ==> var n := diffMs / 3600000;
      RelativeTime(diffMs) == Some("vor " + IntToString(n) + " Stunde" + (if n > 1 then "n" else ""))
    ensures 86400000 <= diffMs < 604800000 ==> var n := diffMs / 86400000;
      RelativeTime(diffMs) == Some("vor " + IntToString(n) + " Tag" + (if n > 1 then "en" else ""))
  {
    UnitsCompose(diffMs);
  }
}
