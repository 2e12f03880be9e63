/** The Python string and list built-ins the core relies on: `str.split` on one character,
    `str.join`, the prefix slice `xs[:n]`, `int(text)`, `str(n)` and `os.path.splitext`. */
module PyStrings {
  import opened Wrappers

  // ---------------------------------------------------------------- split / join

  /** `s.split(sep)` for a one-character separator: always at least one part, and no part
      contains the separator. */
  function Split(s: string, sep: char): (parts: seq<string>)
    ensures |parts| >= 1
    ensures forall i :: 0 <= i < |parts| ==> sep !in parts[i]
    decreases |s|
  {
    if |s| == 0 then [""]
    else
      var rest := Split(s[1..], sep);
      if s[0] == sep then [""] + rest
      else [[s[0]] + rest[0]] + rest[1..]
  }

  /** `sep.join(parts)`. */
  function Join(parts: seq<string>, sep: string): (joined: string)
    ensures |parts| > 0 ==> parts[0] <= joined
    ensures |parts| > 0 ==> |joined| >= (|parts| - 1) * |sep|
    decreases |parts|
  {
    if |parts| == 0 then ""
    else if |parts| == 1 then parts[0]
    else parts[0] + sep + Join(parts[1..], sep)
  }

  /** Joining the parts of a split with the same separator gives the original string back. */
  lemma {:induction false} JoinSplit(s: string, sep: char)
    ensures Join(Split(s, sep), [sep]) == s
    decreases |s|
  {
    if |s| > 0 {
      JoinSplit(s[1..], sep);
      var rest := Split(s[1..], sep);
      if s[0] == sep {
        assert Split(s, sep)[1..] == rest;
        assert s == [sep] + s[1..];
      } else if |rest| == 1 {
        assert s == [s[0]] + s[1..];
      } else {
        var parts := Split(s, sep);
        assert parts[1..] == rest[1..];
        assert Join(rest, [sep]) == rest[0] + [sep] + Join(rest[1..], [sep]);
        assert s == [s[0]] + s[1..];
      }
    }
  }

  /** Splitting `w + s` where `w` holds no separator glues `w` onto the first part of `s`. */
  lemma {:induction false} SplitPrefix(w: string, s: string, sep: char)
    requires sep !in w
    ensures Split(w + s, sep) == [w + Split(s, sep)[0]] + Split(s, sep)[1..]
    decreases |w|
  {
    if |w| > 0 {
      SplitPrefix(w[1..], s, sep);
      assert (w + s)[1..] == w[1..] + s;
      assert (w + s)[0] == w[0];
      assert [w[0]] + (w[1..] + Split(s, sep)[0]) == w + Split(s, sep)[0];
    } else {
      var parts := Split(s, sep);
      assert w + s == s;
      assert w + parts[0] == parts[0];
      assert parts == [parts[0]] + parts[1..];
    }
  }

  /** Splitting a join of separator-free parts gives the parts back. */
  lemma {:induction false} SplitJoin(parts: seq<string>, sep: char)
    requires |parts| >= 1
    requires forall i :: 0 <= i < |parts| ==> sep !in parts[i]
    ensures Split(Join(parts, [sep]), sep) == parts
    decreases |parts|
  {
    if |parts| == 1 {
      SplitPrefix(parts[0], "", sep);
      assert parts[0] + "" == parts[0];
    } else {
      var tail := Join(parts[1..], [sep]);
      SplitJoin(parts[1..], sep);
      assert Join(parts, [sep]) == parts[0] + ([sep] + tail);
      SplitPrefix(parts[0], [sep] + tail, sep);
      assert ([sep] + tail)[1..] == tail;
      assert Split([sep] + tail, sep) == [""] + parts[1..];
      assert parts[0] + "" == parts[0];
      assert parts == [parts[0]] + parts[1..];
    }
  }

  // ---------------------------------------------------------------- slicing

  /** Python's `xs[:n]`: a negative `n` counts from the end. */
  function Take<T>(xs: seq<T>, n: int): (r: seq<T>)
    ensures n >= 0 ==> |r| == if n < |xs| then n else |xs|
    ensures n < 0 ==> |r| == if |xs| + n > 0 then |xs| + n else 0
    ensures r <= xs
  {
    if n >= 0 then (if n < |xs| then xs[..n] else xs)
    else (if |xs| + n > 0 then xs[..|xs| + n] else [])
  }

  // ---------------------------------------------------------------- int(text) and str(n)

  predicate IsDigit(c: char) { '0' <= c <= '9' }

  /** The ASCII characters `int()` skips around a literal as white space. */
  predicate IsSpace(c: char) { c == ' ' || c == '\t' || c == '\n' || c == '\r' || c as int == 11 || c as int == 12 }

  function StripLeft(s: string): string
    decreases |s|
  {
    if |s| > 0 && IsSpace(s[0]) then StripLeft(s[1..]) else s
  }

  /** Stripping on the left drops leading white space only: a suffix remains that does not
      start with white space. */
  lemma {:induction false} StripLeftSuffix(s: string)
    ensures |StripLeft(s)| <= |s| && StripLeft(s) == s[|s| - |StripLeft(s)|..]
    ensures |StripLeft(s)| > 0 ==> !IsSpace(StripLeft(s)[0])
    decreases |s|
  {
    if |s| > 0 && IsSpace(s[0]) {
      StripLeftSuffix(s[1..]);
    }
  }

  function StripRight(s: string): string
    decreases |s|
  {
    if |s| > 0 && IsSpace(s[|s| - 1]) then StripRight(s[..|s| - 1]) else s
  }

  /** Stripping on the right drops trailing white space only: a prefix remains that does not
      end with white space. */
  lemma {:induction false} StripRightPrefix(s: string)
    ensures StripRight(s) <= s
    ensures |StripRight(s)| > 0 ==> !IsSpace(StripRight(s)[|StripRight(s)| - 1])
    decreases |s|
  {
    if |s| > 0 && IsSpace(s[|s| - 1]) {
      StripRightPrefix(s[..|s| - 1]);
    }
  }

  /** White space removed at both ends. */
  function Strip(s: string): (t: string)
    ensures |t| <= |s|
    ensures |t| > 0 ==> !IsSpace(t[0]) && !IsSpace(t[|t| - 1])
    ensures |s| > 0 && !IsSpace(s[0]) && !IsSpace(s[|s| - 1]) ==> t == s
  {
    StripLeftSuffix(s);
    StripRightPrefix(StripLeft(s));
    StripRight(StripLeft(s))
  }

  /** The digits of an integer literal in the form `int()` accepts: ASCII digits, with single
      underscores allowed between two digits. */
  predicate DigitGroups(b: string)
  {
    && |b| > 0 && IsDigit(b[0]) && IsDigit(b[|b| - 1])
    && (forall i :: 0 <= i < |b| ==> IsDigit(b[i]) || b[i] == '_')
    && (forall i :: 0 <= i < |b| - 1 ==> b[i] == '_' ==> b[i + 1] != '_')
  }

  /** The value of a digit string, underscores skipped. */
  function DigitsValue(b: string): nat
    decreases |b|
  {
    if |b| == 0 then 0
    else if b[|b| - 1] == '_' then DigitsValue(b[..|b| - 1])
    else DigitsValue(b[..|b| - 1]) * 10 + DigitOf(b[|b| - 1])
  }

  function DigitOf(c: char): nat
  {
    if IsDigit(c) then (c - '0') as nat else 0
  }

  /** Python's `int(text)`: surrounding white space, an optional sign and the digits of a
      decimal literal; anything else is a ValueError (here `None`). */
  function ParseInt(text: string): (n: Option<int>)
    ensures n.Some? ==> exists i :: 0 <= i < |text| && IsDigit(text[i])
    ensures |text| > 0 && (forall i :: 0 <= i < |text| ==> IsDigit(text[i])) ==> n == Some(DigitsValue(text))
  {
    var t := Strip(text);
    if |t| == 0 then None
    else
      var negative := t[0] == '-';
      var body := if t[0] == '-' || t[0] == '+' then t[1..] else t;
      var magnitude: int := DigitsValue(body);
      if DigitGroups(body) then
        var j := if t[0] == '-' || t[0] == '+' then 1 else 0;
        StripLeftSuffix(text);
        StripRightPrefix(StripLeft(text));
        assert IsDigit(text[|text| - |StripLeft(text)| + j]) by {
          assert body[0] == t[j] == StripLeft(text)[j];
        }
        Some(if negative then -magnitude else magnitude)
      else None
  }

  function DigitChar(d: nat): char
    requires d < 10
  {
    ('0' as int + d) as char
  }

  /** Python's `str(n)` for a natural number. */
  function NatToString(n: nat): (s: string)
    ensures |s| >= 1
    ensures forall i :: 0 <= i < |s| ==> IsDigit(s[i])
    decreases n
  {
    if n < 10 then [DigitChar(n)] else NatToString(n / 10) + [DigitChar(n % 10)]
  }

  lemma {:induction false} DigitsValueOfNatToString(n: nat)
    ensures DigitsValue(NatToString(n)) == n
    decreases n
  {
    var s := NatToString(n);
    if n >= 10 {
      DigitsValueOfNatToString(n / 10);
      assert s[..|s| - 1] == NatToString(n / 10);
    }
  }

  /** Typing back the numeral `str(n)` makes `int()` return `n`. */
  lemma ParseIntOfNatToString(n: nat)
    ensures ParseInt(NatToString(n)) == Some(n)
  {
    var s := NatToString(n);
    assert !IsSpace(s[0]) && !IsSpace(s[|s| - 1]);
    assert StripLeft(s) == s;
    assert StripRight(s) == s;
    assert Strip(s) == s;
    assert s[0] != '-' && s[0] != '+';
    assert DigitGroups(s);
    DigitsValueOfNatToString(n);
  }

  // ---------------------------------------------------------------- os.path.splitext

  /** The index of the last occurrence of `c` in `s`, or -1. */
  function LastIndexOf(s: string, c: char): (k: int)
    ensures -1 <= k < |s|
    ensures k >= 0 ==> s[k] == c
    ensures forall j :: k < j < |s| ==> s[j] != c
    decreases |s|
  {
    if |s| == 0 then -1
    else if s[|s| - 1] == c then |s| - 1
    else LastIndexOf(s[..|s| - 1], c)
  }

  /** The root that `os.path.splitext(path)[0]` returns on a POSIX system: the path without its
      final extension, where an extension is a last '.' that follows the last '/' and is preceded,
      within the file name, by some character other than '.' (so ".bashrc" has none). */
  function SplitextRoot(path: string): (root: string)
    ensures root <= path
    ensures root == path || (path[|root|] == '.' && '.' !in path[|root| + 1..] && '/' !in path[|root|..])
    ensures '.' !in path ==> root == path
  {
    var sepIndex := LastIndexOf(path, '/');
    var dotIndex := LastIndexOf(path, '.');
    if dotIndex > sepIndex && exists j :: sepIndex + 1 <= j < dotIndex && path[j] != '.' then
      assert forall j :: dotIndex < j < |path| ==> path[j] != '/';
      path[..dotIndex]
    else path
  }

  /** A file name with an extension: the root is the name in front of the last dot. */
  lemma SplitextOfNameAndExtension(name: string, ext: string)
    requires |name| > 0 && name[0] != '.'
    requires '/' !in name && '/' !in ext && '.' !in ext
    ensures SplitextRoot(name + "." + ext) == name
  {
    var path := name + "." + ext;
    assert path[|name|] == '.';
    assert forall j :: |name| < j < |path| ==> path[j] == ext[j - |name| - 1];
    assert forall j :: 0 <= j < |path| ==> path[j] != '/';
    assert LastIndexOf(path, '.') == |name|;
    assert path[0] == name[0];
    assert path[..|name|] == name;
  }
}
