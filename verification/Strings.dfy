/** The Python string methods the service relies on. */
module Strings {

  /** s.split(sep) */
  function Split(s: string, sep: char): (parts: seq<string>)
    ensures |parts| >= 1
    ensures forall i | 0 <= i < |parts| :: sep !in parts[i]
  {
    if s == "" then [""]
    else
      var rest := Split(s[1..], sep);
      if s[0] == sep then [""] + rest else [[s[0]] + rest[0]] + rest[1..]
  }

  /** sep.join(parts) */
  function Join(parts: seq<string>, sep: char): string {
    if |parts| == 0 then ""
    else if |parts| == 1 then parts[0]
    else parts[0] + [sep] + Join(parts[1..], sep)
  }

  lemma {:induction false} JoinSplit(s: string, sep: char)
    ensures Join(Split(s, sep), sep) == s
  {
    if s != "" {
      var rest := Split(s[1..], sep);
      JoinSplit(s[1..], sep);
      if s[0] == sep {
        assert ([""] + rest)[1..] == rest;
      } else {
        assert ([[s[0]] + rest[0]] + rest[1..])[1..] == rest[1..];
      }
      assert [s[0]] + s[1..] == s;
    }
  }

  lemma {:induction false} SplitPrefix(first: string, s: string, sep: char)
    requires sep !in first
    ensures Split(first + [sep] + s, sep) == [first] + Split(s, sep)
    ensures Split(first, sep) == [first]
  {
    if first == "" {
      assert (first + [sep] + s)[1..] == s;
    } else {
      SplitPrefix(first[1..], s, sep);
      assert (first + [sep] + s)[1..] == first[1..] + [sep] + s;
      assert first == [first[0]] + first[1..];
    }
  }

  lemma {:induction false} SplitSuffix(s: string, last: string, sep: char)
    requires sep !in last
    ensures Split(s + [sep] + last, sep) == Split(s, sep) + [last]
  {
    if s == "" {
      SplitPrefix("", last, sep);
      SplitPrefix(last, "", sep);
      assert "" + [sep] + last == s + [sep] + last;
    } else {
      SplitSuffix(s[1..], last, sep);
      assert (s + [sep] + last)[1..] == s[1..] + [sep] + last;
      var rest := Split(s[1..], sep);
      assert (rest + [last])[1..] == rest[1..] + [last];
    }
  }

  lemma {:induction false} SplitAtLast(s: string, sep: char) returns (before: string, last: string)
    requires sep in s
    ensures sep !in last && s == before + [sep] + last
  {
    if sep in s[1..] {
      var rest;
      rest, last := SplitAtLast(s[1..], sep);
      before := [s[0]] + rest;
      assert s == [s[0]] + s[1..];
    } else {
      before, last := "", s[1..];
    }
  }

  lemma {:induction false} SplitJoin(parts: seq<string>, sep: char)
    requires |parts| >= 1 && forall i | 0 <= i < |parts| :: sep !in parts[i]
    ensures Split(Join(parts, sep), sep) == parts
  {
    if |parts| == 1 {
      SplitPrefix(parts[0], "", sep);
    } else {
      SplitPrefix(parts[0], Join(parts[1..], sep), sep);
      SplitJoin(parts[1..], sep);
      assert [parts[0]] + parts[1..] == parts;
    }
  }

  /** s.lstrip("0") */
  function StripZeros(s: string): (t: string)
    ensures |t| <= |s| && (t == "" || t[0] != '0')
    ensures t == s <==> s == "" || s[0] != '0'
  {
    if s != "" && s[0] == '0' then StripZeros(s[1..]) else s
  }

  ghost predicate IsZeros(s: string) {
    forall i | 0 <= i < |s| :: s[i] == '0'
  }

  /** t is s from its first character other than a zero on. */
  ghost predicate IsUnpadded(s: string, t: string) {
    (t == "" || t[0] != '0') && exists zeros :: IsZeros(zeros) && s == zeros + t
  }

  lemma {:induction false} StrippedIsUnpadded(s: string)
    ensures IsUnpadded(s, StripZeros(s))
  {
    if s != "" && s[0] == '0' {
      StrippedIsUnpadded(s[1..]);
      var t := StripZeros(s[1..]);
      var zeros :| IsZeros(zeros) && s[1..] == zeros + t;
      assert s == "0" + s[1..] && s == ("0" + zeros) + t;
      assert IsZeros("0" + zeros);
    } else {
      assert IsZeros("") && s == "" + s;
    }
  }

  /** s.rjust(2, "0") */
  function PadTwo(s: string): string {
    if |s| == 0 then "00" else if |s| == 1 then "0" + s else s
  }

  /** t is s after as many zeros as it lacks to two characters. */
  ghost predicate IsPaddedForm(s: string, t: string) {
    && |t| == (if |s| < 2 then 2 else |s|)
    && exists zeros :: IsZeros(zeros) && t == zeros + s
  }

  lemma PaddedIsPaddedForm(s: string)
    ensures IsPaddedForm(s, PadTwo(s))
  {
    var zeros := if |s| == 0 then "00" else if |s| == 1 then "0" else "";
    assert IsZeros(zeros) && PadTwo(s) == zeros + s;
  }

  lemma StripPadded(s: string)
    ensures StripZeros(PadTwo(s)) == StripZeros(s)
  {
    if |s| == 1 {
      assert PadTwo(s)[1..] == s;
    } else if |s| == 0 {
      assert "00"[1..] == "0" && "0"[1..] == "";
    }
  }

  /** Two characters, or more without a leading zero. */
  predicate IsPadded(s: string) {
    |s| == 2 || (|s| > 2 && s[0] != '0')
  }

  lemma PadStrippedIff(s: string)
    ensures PadTwo(StripZeros(s)) == s <==> IsPadded(s)
  {
    if |s| == 2 && s[0] == '0' {
      assert s == "0" + s[1..];
      assert StripZeros(s) == StripZeros(s[1..]);
      if s[1] == '0' {
        assert s == "00" && StripZeros(s[1..]) == StripZeros("") by { assert s[1..][1..] == ""; }
      } else {
        assert StripZeros(s[1..]) == s[1..];
      }
    }
  }

  lemma StripKeepsOut(s: string, sep: char)
    requires sep !in s
    ensures sep !in StripZeros(s)
  {
  }
}
