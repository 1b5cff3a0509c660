/** The build script's compiler-version probe: the text printed by `rustc --version` is split
  * into whitespace-separated words, the second word is split at '.' and '-', the major and
  * minor numbers are parsed as u32, and the AVX-512 kernels are enabled from Rust 1.89 on.
  * Running the compiler and decoding its output as UTF-8 are outside the model: the function
  * takes the decoded text. */
module Build {
  import opened Wrappers

  const U32Max: nat := 4294967295

  /** `char::is_whitespace`: the characters with the Unicode White_Space property. */
  predicate IsSpace(c: char)
  {
    var n := c as int;
    n == 0x20 || 0x09 <= n <= 0x0D || n == 0x85 || n == 0xA0 || n == 0x1680
    || 0x2000 <= n <= 0x200A || n == 0x2028 || n == 0x2029 || n == 0x202F
    || n == 0x205F || n == 0x3000
  }

  predicate NoSpace(s: string)
  {
    forall i | 0 <= i < |s| :: !IsSpace(s[i])
  }

  /** The length of the longest prefix of s holding no whitespace. */
  function WordLen(s: string): (n: nat)
    ensures n <= |s|
    ensures NoSpace(s[..n])
    ensures n < |s| ==> IsSpace(s[n])
  {
    if |s| == 0 || IsSpace(s[0]) then 0 else 1 + WordLen(s[1..])
  }

  /** `str::split_whitespace`: the maximal runs of non-whitespace characters, in order. */
  function SplitWhitespace(s: string): (words: seq<string>)
    ensures forall k | 0 <= k < |words| :: |words[k]| > 0 && NoSpace(words[k])
    decreases |s|
  {
    if |s| == 0 then []
    else if IsSpace(s[0]) then SplitWhitespace(s[1..])
    else
      var n := WordLen(s);
      [s[..n]] + SplitWhitespace(s[n..])
  }

  /** The characters of s that are not whitespace. */
  function WithoutSpaces(s: string): string
  {
    if |s| == 0 then [] else (if IsSpace(s[0]) then [] else [s[0]]) + WithoutSpaces(s[1..])
  }

  function Concat(words: seq<string>): string
  {
    if |words| == 0 then [] else words[0] + Concat(words[1..])
  }

  lemma WithoutSpacesAppend(a: string, b: string)
    ensures WithoutSpaces(a + b) == WithoutSpaces(a) + WithoutSpaces(b)
  {
    if |a| > 0 {
      assert (a + b)[1..] == a[1..] + b;
      WithoutSpacesAppend(a[1..], b);
    } else {
      assert a + b == b;
    }
  }

  lemma WithoutSpacesOfWord(s: string)
    requires NoSpace(s)
    ensures WithoutSpaces(s) == s
  {
    if |s| > 0 {
      assert NoSpace(s[1..]) by {
        forall i | 0 <= i < |s[1..]| ensures !IsSpace(s[1..][i]) {
          assert s[1..][i] == s[i + 1];
        }
      }
      WithoutSpacesOfWord(s[1..]);
    }
  }

  /** Splitting at whitespace loses nothing but the whitespace: the words laid end to end are
    * the text with its whitespace removed. */
  lemma {:induction false} SplitWhitespaceKeepsText(s: string)
    ensures Concat(SplitWhitespace(s)) == WithoutSpaces(s)
    decreases |s|
  {
    if |s| == 0 {
    } else if IsSpace(s[0]) {
      SplitWhitespaceKeepsText(s[1..]);
    } else {
      var n := WordLen(s);
      var words := SplitWhitespace(s);
      assert words == [s[..n]] + SplitWhitespace(s[n..]);
      assert words[1..] == SplitWhitespace(s[n..]);
      SplitWhitespaceKeepsText(s[n..]);
      assert s == s[..n] + s[n..];
      WithoutSpacesAppend(s[..n], s[n..]);
      WithoutSpacesOfWord(s[..n]);
    }
  }

  /** A word followed by the end of the text or by whitespace is the first word. */
  lemma SplitWhitespaceWord(word: string, rest: string)
    requires |word| > 0 && NoSpace(word)
    requires |rest| == 0 || IsSpace(rest[0])
    ensures SplitWhitespace(word + rest) == [word] + SplitWhitespace(rest)
  {
    var s := word + rest;
    WordLenOfWord(word, rest);
    assert s[..|word|] == word;
    assert s[|word|..] == rest;
  }

  /** WordLen is the only length with its two properties: a whitespace-free prefix that is
    * followed by whitespace or the end of the text. */
  lemma {:induction false} WordLenUnique(s: string, n: nat)
    requires n <= |s| && NoSpace(s[..n]) && (n < |s| ==> IsSpace(s[n]))
    ensures WordLen(s) == n
  {
    hide IsSpace;
    if n > 0 {
      assert s[..n][0] == s[0] && !IsSpace(s[0]);
      var t := s[1..][..n - 1];
      assert NoSpace(t) by {
        forall i | 0 <= i < |t| ensures !IsSpace(t[i]) {
          assert t[i] == s[..n][i + 1];
        }
      }
      assert n - 1 < |s[1..]| ==> s[1..][n - 1] == s[n];
      WordLenUnique(s[1..], n - 1);
    }
  }

  lemma WordLenOfWord(word: string, rest: string)
    requires NoSpace(word)
    requires |rest| == 0 || IsSpace(rest[0])
    ensures WordLen(word + rest) == |word|
  {
    hide IsSpace;
    var s := word + rest;
    assert s[..|word|] == word;
    assert |word| < |s| ==> s[|word|] == rest[0];
    WordLenUnique(s, |word|);
  }

  /** `str::split(c)`: the pieces between occurrences of c, empty pieces included; there is
    * always at least one. */
  function Split(s: string, c: char): (pieces: seq<string>)
    ensures |pieces| >= 1
    ensures forall k | 0 <= k < |pieces| :: c !in pieces[k]
  {
    if |s| == 0 then [""]
    else if s[0] == c then [""] + Split(s[1..], c)
    else
      var rest := Split(s[1..], c);
      [[s[0]] + rest[0]] + rest[1..]
  }

  /** Pieces joined back with the separator between them. */
  function Join(pieces: seq<string>, c: char): string
    requires |pieces| >= 1
  {
    if |pieces| == 1 then pieces[0] else pieces[0] + [c] + Join(pieces[1..], c)
  }

  /** Splitting is undone by joining with the same separator. */
  lemma {:induction false} SplitJoin(s: string, c: char)
    ensures Join(Split(s, c), c) == s
  {
    if |s| == 0 {
    } else if s[0] == c {
      SplitJoin(s[1..], c);
      assert Split(s, c)[1..] == Split(s[1..], c);
      assert s == [c] + s[1..];
    } else {
      var rest := Split(s[1..], c);
      SplitJoin(s[1..], c);
      var pieces := Split(s, c);
      if |rest| == 1 {
        assert pieces == [[s[0]] + rest[0]];
        assert s == [s[0]] + s[1..];
      } else {
        assert pieces[1..] == rest[1..];
        assert Join(rest, c) == rest[0] + [c] + Join(rest[1..], c);
        assert s == [s[0]] + s[1..];
      }
    }
  }

  /** A prefix free of the separator is glued onto the first piece of what follows. */
  lemma {:induction false} SplitPrefix(p: string, q: string, c: char)
    requires c !in p
    ensures Split(p + q, c)[0] == p + Split(q, c)[0]
    ensures Split(p + q, c)[1..] == Split(q, c)[1..]
  {
    if |p| > 0 {
      assert (p + q)[1..] == p[1..] + q;
      assert (p + q)[0] == p[0];
      SplitPrefix(p[1..], q, c);
      assert p == [p[0]] + p[1..];
    } else {
      assert p + q == q;
    }
  }

  /** A prefix free of the separator and followed by it is the first piece. */
  lemma SplitAtSeparator(p: string, q: string, c: char)
    requires c !in p
    ensures Split(p + [c] + q, c) == [p] + Split(q, c)
  {
    var cq := [c] + q;
    assert p + [c] + q == p + cq;
    SplitPrefix(p, cq, c);
    assert cq[0] == c && cq[1..] == q;
    assert Split(cq, c) == [""] + Split(q, c);
    var pieces := Split(p + cq, c);
    assert pieces[0] == p;
    assert pieces[1..] == Split(q, c);
    assert pieces == [pieces[0]] + pieces[1..];
  }

  /** `u8::to_digit(10)` for a decimal digit character. */
  predicate IsDigit(c: char)
  {
    '0' <= c <= '9'
  }

  predicate AllDigits(s: string)
  {
    forall i | 0 <= i < |s| :: IsDigit(s[i])
  }

  /** The value of a string of decimal digits, most significant first. */
  function DecimalValue(s: string): nat
    requires AllDigits(s)
  {
    if |s| == 0 then 0 else 10 * DecimalValue(s[..|s| - 1]) + (s[|s| - 1] as int - '0' as int)
  }

  /** `str::parse::<u32>`: an optional '+', then one or more decimal digits whose value fits in
    * 32 bits. Anything else (the empty string, a lone sign, a '-', a stray character,
    * overflow) is an error. */
  function ParseU32(s: string): (r: Option<nat>)
    ensures r.Some? ==> r.value <= U32Max
    ensures |s| == 0 ==> r.None?
  {
    var digits := if |s| > 0 && s[0] == '+' then s[1..] else s;
    if |digits| == 0 || !AllDigits(digits) then None
    else if DecimalValue(digits) > U32Max then None
    else Some(DecimalValue(digits))
  }

  /** The decimal form of n without leading zeros (the inverse partner of the parser). */
  function Decimal(n: nat): (s: string)
    ensures |s| > 0 && AllDigits(s)
  {
    if n < 10 then [('0' as int + n) as char]
    else Decimal(n / 10) + [('0' as int + n % 10) as char]
  }

  lemma {:induction false} DecimalValueOfDecimal(n: nat)
    ensures DecimalValue(Decimal(n)) == n
  {
    if n >= 10 {
      var s := Decimal(n);
      assert s[..|s| - 1] == Decimal(n / 10);
      DecimalValueOfDecimal(n / 10);
    }
  }

  /** Parsing the decimal form of any u32 gives the number back. */
  lemma ParseDecimal(n: nat)
    requires n <= U32Max
    ensures ParseU32(Decimal(n)) == Some(n)
  {
    DecimalValueOfDecimal(n);
  }

  /** A number past u32::MAX does not parse. */
  lemma ParseOverflows(n: nat)
    requires n > U32Max
    ensures ParseU32(Decimal(n)) == None
  {
    DecimalValueOfDecimal(n);
  }

  /** A leading '+' is accepted. */
  lemma ParsePlusSign(n: nat)
    requires n <= U32Max
    ensures ParseU32("+" + Decimal(n)) == Some(n)
  {
    DecimalValueOfDecimal(n);
    assert ("+" + Decimal(n))[1..] == Decimal(n);
  }

  /** Parsing rejects every string that holds a character other than a digit after the
    * optional leading '+'. */
  lemma ParseRejectsNonDigit(s: string, i: nat)
    requires 0 <= i < |s| && !IsDigit(s[i]) && !(i == 0 && s[0] == '+')
    ensures ParseU32(s) == None
  {
    if |s| > 0 && s[0] == '+' {
      assert s[1..][i - 1] == s[i];
    }
  }

  /** `rustc_version`: the (major, minor) from the compiler's version line, or None when the
    * line has no second word or either number does not parse. */
  function RustcVersion(stdout: string): (r: Option<(nat, nat)>)
    ensures r.Some? ==> r.value.0 <= U32Max && r.value.1 <= U32Max
  {
    var words := SplitWhitespace(stdout);
    if |words| < 2 then None
    else
      var parts := Split(words[1], '.');
      var major := ParseU32(parts[0]);
      if major.None? || |parts| < 2 then None
      else
        var minor := ParseU32(Split(parts[1], '-')[0]);
        if minor.None? then None else Some((major.value, minor.value))
  }

  /** The gate of `main`: the `has_stable_avx512` configuration is set from Rust 1.89 on. */
  predicate EnablesAvx512(version: Option<(nat, nat)>)
  {
    version.Some? && (version.value.0 > 1 || (version.value.0 == 1 && version.value.1 >= 89))
  }

  /** Lexicographic order on (major, minor). */
  predicate VersionAtMost(a: (nat, nat), b: (nat, nat))
  {
    a.0 < b.0 || (a.0 == b.0 && a.1 <= b.1)
  }

  /** The gate opens exactly at versions from 1.89 on, so a newer compiler never loses it. */
  lemma EnablesAvx512Exactly(v: (nat, nat))
    ensures EnablesAvx512(Some(v)) <==> VersionAtMost((1, 89), v)
  {}

  lemma EnablesAvx512Monotone(a: (nat, nat), b: (nat, nat))
    requires VersionAtMost(a, b) && EnablesAvx512(Some(a))
    ensures EnablesAvx512(Some(b))
  {}

  /** A version line that cannot be read never enables AVX-512. */
  lemma UnreadableVersionDisables(stdout: string)
    requires RustcVersion(stdout).None?
    ensures !EnablesAvx512(RustcVersion(stdout))
  {}

  /** The second word of "<first> <version><rest>" is the version. */
  lemma SecondWord(first: string, version: string, rest: string)
    requires |first| > 0 && NoSpace(first) && |version| > 0 && NoSpace(version)
    requires |rest| == 0 || IsSpace(rest[0])
    ensures |SplitWhitespace(first + " " + version + rest)| >= 2
    ensures SplitWhitespace(first + " " + version + rest)[1] == version
  {
    hide SplitWhitespace;
    assert first + " " + version + rest == first + (" " + (version + rest));
    SplitWhitespaceWord(version, rest);
    SkipSpace(" " + (version + rest));
    assert (" " + (version + rest))[1..] == version + rest;
    SplitWhitespaceWord(first, " " + (version + rest));
  }

  /** Leading whitespace is skipped. */
  lemma SkipSpace(s: string)
    requires |s| > 0 && IsSpace(s[0])
    ensures SplitWhitespace(s) == SplitWhitespace(s[1..])
  {}

  /** The decimal form of a number contains neither separator. */
  lemma DecimalFreeOfSeparators(n: nat)
    ensures '.' !in Decimal(n) && '-' !in Decimal(n)
  {
    DigitsHaveNo(Decimal(n), '.');
    DigitsHaveNo(Decimal(n), '-');
  }

  /** The text between the first '.' and the next '.' or '-' of "<a>.<b><tail>" is b when the
    * tail is empty or starts with '.' or '-'. */
  lemma MinorPiece(b: string, tail: string)
    requires '.' !in b && '-' !in b
    requires |tail| == 0 || tail[0] == '.' || tail[0] == '-'
    ensures Split(Split(b + tail, '.')[0], '-')[0] == b
  {
    SplitPrefix(b, tail, '.');
    var t := Split(tail, '.')[0];
    hide Split;
    if |tail| == 0 || tail[0] == '.' {
      FirstPieceEmpty(tail, '.');
      assert b + t == b;
      NoSeparatorSingle(b, '-');
    } else {
      FirstPieceHead(tail, '.');
      assert t == ['-'] + t[1..];
      assert b + t == b + ['-'] + t[1..];
      SplitAtSeparator(b, t[1..], '-');
    }
  }

  /** The first piece is empty when the text is empty or starts with the separator. */
  lemma FirstPieceEmpty(s: string, c: char)
    requires |s| == 0 || s[0] == c
    ensures Split(s, c)[0] == ""
  {}

  /** Otherwise the first piece starts with the text's first character. */
  lemma FirstPieceHead(s: string, c: char)
    requires |s| > 0 && s[0] != c
    ensures |Split(s, c)[0]| > 0 && Split(s, c)[0][0] == s[0]
  {}

  /** The words of the version line worth reading: pieces of "<major>.<minor><tail>". */
  lemma VersionPieces(major: nat, minor: nat, tail: string)
    requires |tail| == 0 || tail[0] == '.' || tail[0] == '-'
    ensures |Split(Decimal(major) + "." + Decimal(minor) + tail, '.')| >= 2
    ensures Split(Decimal(major) + "." + Decimal(minor) + tail, '.')[0] == Decimal(major)
    ensures Split(Split(Decimal(major) + "." + Decimal(minor) + tail, '.')[1], '-')[0]
         == Decimal(minor)
  {
    hide Decimal;
    DecimalFreeOfSeparators(major);
    DecimalFreeOfSeparators(minor);
    assert Decimal(major) + "." + Decimal(minor) + tail
        == Decimal(major) + ['.'] + (Decimal(minor) + tail);
    SplitAtSeparator(Decimal(major), Decimal(minor) + tail, '.');
    MinorPiece(Decimal(minor), tail);
  }

  lemma NoSpaceVersion(major: nat, minor: nat, tail: string)
    requires NoSpace(tail)
    ensures NoSpace(Decimal(major) + "." + Decimal(minor) + tail)
  {
    var a, b := Decimal(major), Decimal(minor);
    var version := a + "." + b + tail;
    forall i | 0 <= i < |version| ensures !IsSpace(version[i]) {
      if i < |a| {
        assert version[i] == a[i];
      } else if i == |a| {
        assert version[i] == '.';
      } else if i < |a| + 1 + |b| {
        assert version[i] == b[i - |a| - 1];
      } else {
        assert version[i] == tail[i - |a| - 1 - |b|];
      }
    }
  }

  /** A line "<first word> <major>.<minor><tail>[<whitespace>...]", the tail empty or starting
    * with '.' or '-' (as in "rustc 1.89.0 ..." and "rustc 1.95.0-nightly ..."), reads as
    * (major, minor). */
  lemma RustcVersionOfLine(first: string, major: nat, minor: nat, tail: string, rest: string)
    requires |first| > 0 && NoSpace(first) && NoSpace(tail)
    requires major <= U32Max && minor <= U32Max
    requires |tail| == 0 || tail[0] == '.' || tail[0] == '-'
    requires |rest| == 0 || IsSpace(rest[0])
    ensures RustcVersion(first + " " + Decimal(major) + "." + Decimal(minor) + tail + rest)
         == Some((major, minor))
  {
    hide Decimal, Split, SplitWhitespace, ParseU32;
    var version := Decimal(major) + "." + Decimal(minor) + tail;
    NoSpaceVersion(major, minor, tail);
    SecondWord(first, version, rest);
    assert first + " " + Decimal(major) + "." + Decimal(minor) + tail + rest
        == first + " " + version + rest;
    VersionPieces(major, minor, tail);
    ParseDecimal(major);
    ParseDecimal(minor);
  }

  lemma DigitsHaveNo(s: string, c: char)
    requires AllDigits(s) && !IsDigit(c)
    ensures c !in s
  {}

  lemma NoSeparatorSingle(s: string, c: char)
    requires c !in s
    ensures Split(s, c) == [s]
  {
    SplitPrefix(s, [], c);
    assert s + [] == s;
  }

  /** The release compiler's version line "rustc 1.89.0" enables AVX-512. */
  lemma StableLineEnables()
    ensures RustcVersion("rustc 1.89.0") == Some((1, 89))
    ensures EnablesAvx512(RustcVersion("rustc 1.89.0"))
  {
    assert Decimal(1) == "1";
    assert Decimal(89) == "89";
    assert NoSpace("rustc") && NoSpace(".0");
    hide *;
    RustcVersionOfLine("rustc", 1, 89, ".0", "");
    StableLineEnablesSpelling();
  }

  /** A nightly compiler's line "rustc 1.95.0-nightly" reads as 1.95. */
  lemma NightlyLineEnables()
    ensures RustcVersion("rustc 1.95.0-nightly") == Some((1, 95))
  {
    assert Decimal(1) == "1";
    assert Decimal(95) == "95";
    assert NoSpace("rustc") && NoSpace(".0-nightly");
    hide *;
    RustcVersionOfLine("rustc", 1, 95, ".0-nightly", "");
    NightlyLineEnablesSpelling();
  }

  /** Rust 1.88 stays on the AVX2 fallback. */
  lemma OlderLineDisables()
    ensures RustcVersion("rustc 1.88.0") == Some((1, 88))
    ensures !EnablesAvx512(RustcVersion("rustc 1.88.0"))
  {
    assert Decimal(1) == "1";
    assert Decimal(88) == "88";
    assert NoSpace("rustc") && NoSpace(".0");
    hide *;
    RustcVersionOfLine("rustc", 1, 88, ".0", "");
    OlderLineDisablesSpelling();
  }

  lemma StableLineEnablesSpelling()
    ensures "rustc" + " " + "1" + "." + "89" + ".0" + "" == "rustc 1.89.0"
  {}

  lemma NightlyLineEnablesSpelling()
    ensures "rustc" + " " + "1" + "." + "95" + ".0-nightly" + "" == "rustc 1.95.0-nightly"
  {}

  lemma OlderLineDisablesSpelling()
    ensures "rustc" + " " + "1" + "." + "88" + ".0" + "" == "rustc 1.88.0"
  {}

  /** A version word without a '.' has no minor number, so the line has no version. */
  lemma NoMinorNoVersion(first: string, major: nat)
    requires |first| > 0 && NoSpace(first)
    ensures RustcVersion(first + " " + Decimal(major)) == None
  {
    hide Split, SplitWhitespace, ParseU32;
    assert NoSpace(Decimal(major));
    SecondWord(first, Decimal(major), "");
    assert first + " " + Decimal(major) + "" == first + " " + Decimal(major);
    DecimalFreeOfSeparators(major);
    NoSeparatorSingle(Decimal(major), '.');
  }

  /** A line of one word has no version. */
  lemma OneWordLineHasNoVersion(word: string, rest: string)
    requires |word| > 0 && NoSpace(word)
    requires forall i | 0 <= i < |rest| :: IsSpace(rest[i])
    ensures RustcVersion(word + rest) == None
  {
    SplitWhitespaceWord(word, rest);
    AllSpaceHasNoWords(rest);
  }

  lemma AllSpaceHasNoWords(s: string)
    requires forall i | 0 <= i < |s| :: IsSpace(s[i])
    ensures SplitWhitespace(s) == []
  {
    if |s| > 0 {
      assert forall i | 0 <= i < |s[1..]| :: IsSpace(s[1..][i]) by {
        forall i | 0 <= i < |s[1..]| ensures IsSpace(s[1..][i]) {
          assert s[1..][i] == s[i + 1];
        }
      }
      AllSpaceHasNoWords(s[1..]);
    }
  }
}
