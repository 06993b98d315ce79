/** The two string functions the services normalise their input with. */
module Text {
  predicate IsSpace(c: char) {
    || '\t' <= c <= '\r' || c == ' ' || c == '\U{0085}' || c == '\U{00A0}' || c == '\U{1680}'
    || '\U{2000}' <= c <= '\U{200A}' || c == '\U{2028}' || c == '\U{2029}' || c == '\U{202F}'
    || c == '\U{205F}' || c == '\U{3000}'
  }

  function TrimLeft(s: string): string {
    if s != "" && IsSpace(s[0]) then TrimLeft(s[1..]) else s
  }

  function TrimRight(s: string): string {
    if s != "" && IsSpace(s[|s| - 1]) then TrimRight(s[..|s| - 1]) else s
  }

  function TrimSpace(s: string): string {
    TrimRight(TrimLeft(s))
  }

  /** Upper case of the ASCII letters, and of the two other characters whose
      upper case is an ASCII letter. */
  function Upper(c: char): char {
    if 'a' <= c <= 'z' then (c as int - 32) as char
    else if c == '\U{0131}' then 'I'
    else if c == '\U{017F}' then 'S'
    else c
  }

  function ToUpper(s: string): string {
    seq(|s|, i requires 0 <= i < |s| => Upper(s[i]))
  }

  /** Length in bytes of the UTF-8 encoding, which is what Go's len counts. */
  function ByteLength(s: string): (n: nat)
    ensures |s| <= n <= 4 * |s|
  {
    if s == "" then 0
    else
      var c := s[|s| - 1] as int;
      ByteLength(s[..|s| - 1]) + if c < 0x80 then 1 else if c < 0x800 then 2 else if c < 0x1_0000 then 3 else 4
  }

  ghost predicate Trimmed(s: string) {
    s == "" || (!IsSpace(s[0]) && !IsSpace(s[|s| - 1]))
  }

  lemma {:induction false} TrimLeftStops(s: string)
    ensures TrimLeft(s) == "" || !IsSpace(TrimLeft(s)[0])
  {
    if s != "" && IsSpace(s[0]) {
      TrimLeftStops(s[1..]);
    }
  }

  lemma {:induction false} TrimRightStops(s: string)
    ensures TrimRight(s) <= s
    ensures TrimRight(s) == "" || !IsSpace(TrimRight(s)[|TrimRight(s)| - 1])
  {
    if s != "" && IsSpace(s[|s| - 1]) {
      TrimRightStops(s[..|s| - 1]);
    }
  }

  lemma TrimSpaceTrims(s: string)
    ensures Trimmed(TrimSpace(s)) && TrimSpace(TrimSpace(s)) == TrimSpace(s)
  {
    TrimLeftStops(s);
    TrimRightStops(TrimLeft(s));
  }

  lemma TrimmedIsKept(s: string)
    requires Trimmed(s)
    ensures TrimSpace(s) == s
  {}

  /** Bytes of one character in UTF-8, section 3 of RFC 3629. */
  lemma BytesOfOne(c: char)
    ensures c as int <= 0x7F ==> ByteLength([c]) == 1
    ensures 0x80 <= c as int <= 0x7FF ==> ByteLength([c]) == 2
    ensures 0x800 <= c as int <= 0xFFFF ==> ByteLength([c]) == 3
    ensures 0x1_0000 <= c as int ==> ByteLength([c]) == 4
  {
    assert [c][..0] == "";
  }

  /** The bytes of a text are those of its parts. */
  lemma {:induction false} BytesAddUp(a: string, b: string)
    ensures ByteLength(a + b) == ByteLength(a) + ByteLength(b)
    decreases |b|
  {
    if b == "" {
      assert a + b == a;
    } else {
      var n := |b| - 1;
      BytesAddUp(a, b[..n]);
      assert (a + b)[..|a + b| - 1] == a + b[..n];
    }
  }

  lemma {:induction false} AsciiBytes(s: string)
    requires forall i | 0 <= i < |s| :: s[i] as int < 0x80
    ensures ByteLength(s) == |s|
  {
    if s != "" {
      AsciiBytes(s[..|s| - 1]);
    }
  }

  lemma {:induction false} BytesOfRepeated(c: char, n: nat)
    requires 0x80 <= c as int < 0x800
    ensures ByteLength(seq(n, _ => c)) == 2 * n
  {
    if n > 0 {
      BytesOfRepeated(c, n - 1);
      assert seq(n, _ => c)[..n - 1] == seq(n - 1, _ => c);
    }
  }

  // ---------------------------------------------------------------------
  // What trimming and upper case are
  // ---------------------------------------------------------------------

  ghost predicate Blank(s: string) {
    forall i | 0 <= i < |s| :: IsSpace(s[i])
  }

  /** The blanks, by code point: among the ASCII characters exactly six. */
  lemma Blanks(c: char)
    ensures IsSpace(c) <==>
      || c as int in {9, 10, 11, 12, 13, 32}
      || c as int in {133, 160, 5760, 8232, 8233, 8239, 8287, 12288}
      || 8192 <= c as int <= 8202
  {}

  lemma {:induction false} TrimLeftSplits(s: string) returns (a: string)
    ensures Blank(a) && s == a + TrimLeft(s)
  {
    if s != "" && IsSpace(s[0]) {
      var a' := TrimLeftSplits(s[1..]);
      a := [s[0]] + a';
      assert a + TrimLeft(s) == [s[0]] + (a' + TrimLeft(s[1..])) == [s[0]] + s[1..] == s;
    } else {
      a := "";
    }
  }

  lemma {:induction false} TrimRightSplits(s: string) returns (b: string)
    ensures Blank(b) && s == TrimRight(s) + b
  {
    if s != "" && IsSpace(s[|s| - 1]) {
      var b' := TrimRightSplits(s[..|s| - 1]);
      var last := [s[|s| - 1]];
      b := b' + last;
      assert TrimRight(s) + b == (TrimRight(s[..|s| - 1]) + b') + last == s[..|s| - 1] + last == s;
    } else {
      b := "";
    }
  }

  /** Trimming cuts off blanks and nothing else. */
  lemma TrimSpaceSplits(s: string) returns (a: string, b: string)
    ensures Blank(a) && Blank(b) && s == a + TrimSpace(s) + b
  {
    a := TrimLeftSplits(s);
    b := TrimRightSplits(TrimLeft(s));
  }

  lemma {:induction false} TrimLeftOf(a: string, s: string)
    requires Blank(a) && (s == "" || !IsSpace(s[0]))
    ensures TrimLeft(a + s) == s
  {
    if a == "" {
      assert a + s == s;
    } else {
      assert (a + s)[1..] == a[1..] + s;
      TrimLeftOf(a[1..], s);
    }
  }

  lemma {:induction false} TrimRightOf(s: string, b: string)
    requires Blank(b) && (s == "" || !IsSpace(s[|s| - 1]))
    ensures TrimRight(s + b) == s
    decreases |b|
  {
    if b == "" {
      assert s + b == s;
    } else {
      assert (s + b)[..|s + b| - 1] == s + b[..|b| - 1];
      TrimRightOf(s, b[..|b| - 1]);
    }
  }

  lemma {:induction false} TrimLeftBlank(a: string)
    requires Blank(a)
    ensures TrimLeft(a) == ""
  {
    if a != "" {
      TrimLeftBlank(a[1..]);
    }
  }

  /** A core that starts and ends with no blank comes out of any padding. */
  lemma TrimSpaceOf(a: string, core: string, b: string)
    requires Blank(a) && Blank(b) && Trimmed(core)
    ensures TrimSpace(a + core + b) == core
  {
    if core == "" {
      assert a + core + b == a + b;
      TrimLeftBlank(a + b);
    } else {
      assert a + core + b == a + (core + b);
      TrimLeftOf(a, core + b);
      TrimRightOf(core, b);
    }
  }

  predicate IsCapital(c: char) { 'A' <= c <= 'Z' }
  predicate IsSmall(c: char) { 'a' <= c <= 'z' }

  /** The same ASCII letter in either case, or the same character. */
  predicate SameLetter(c: char, d: char) {
    || c == d
    || (IsSmall(c) && IsCapital(d) && c as int - 'a' as int == d as int - 'A' as int)
    || (IsCapital(c) && IsSmall(d) && c as int - 'A' as int == d as int - 'a' as int)
  }

  ghost predicate IsAscii(s: string) {
    forall i | 0 <= i < |s| :: s[i] as int < 0x80
  }

  /** Upper case has no small letters, and a text without them is its own. */
  lemma UpperHasNoSmall(s: string)
    ensures forall i | 0 <= i < |ToUpper(s)| :: !IsSmall(ToUpper(s)[i])
    ensures (forall i | 0 <= i < |s| :: !IsSmall(s[i])) && IsAscii(s) ==> ToUpper(s) == s
  {}

  /** Two further characters have an ASCII letter as their upper case. */
  lemma UpperOfOthers()
    ensures ToUpper("\U{0131}") == "I" && ToUpper("\U{017F}") == "S"
  {
    assert ToUpper("\U{0131}")[0] == 'I' && ToUpper("\U{017F}")[0] == 'S';
  }

  /** The same text but for the case of ASCII letters. */
  ghost predicate SameSpelling(s: string, t: string) {
    |s| == |t| && forall i | 0 <= i < |s| :: SameLetter(s[i], t[i])
  }

  /** ASCII texts have the same upper case exactly if they differ in case alone. */
  lemma UpperIffSameLetters(s: string, t: string)
    requires IsAscii(s) && IsAscii(t)
    ensures ToUpper(s) == ToUpper(t) <==> SameSpelling(s, t)
  {
    if ToUpper(s) == ToUpper(t) {
      assert |s| == |ToUpper(s)| == |t|;
      forall i | 0 <= i < |s| ensures SameLetter(s[i], t[i]) {
        assert Upper(s[i]) == ToUpper(s)[i] == ToUpper(t)[i] == Upper(t[i]);
      }
    }
    if SameSpelling(s, t) {
      assert forall i | 0 <= i < |s| :: ToUpper(s)[i] == ToUpper(t)[i];
    }
  }
}
