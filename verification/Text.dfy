/** The string functions of the Go standard library that the models use. A
    string is its sequence of code points. */
module Text {
  import opened Wrappers

  // ---- strings.Split and strings.Join with a one-character separator ----

  function Split(s: string, sep: char): (parts: seq<string>)
    ensures |parts| >= 1
  {
    if s == "" then [""]
    else
      var rest := Split(s[1..], sep);
      if s[0] == sep then [""] + rest else [[s[0]] + rest[0]] + rest[1..]
  }

  function Join(parts: seq<string>, sep: char): string {
    if parts == [] then ""
    else if |parts| == 1 then parts[0]
    else parts[0] + [sep] + Join(parts[1..], sep)
  }

  lemma {:induction false} JoinSplit(s: string, sep: char)
    ensures Join(Split(s, sep), sep) == s
    ensures forall p :: p in Split(s, sep) ==> sep !in p
  {
    if s != "" {
      JoinSplit(s[1..], sep);
      var rest := Split(s[1..], sep);
      assert s == [s[0]] + s[1..];
      if s[0] == sep {
        assert ([""] + rest)[1..] == rest;
      } else if |rest| > 1 {
        var all := [[s[0]] + rest[0]] + rest[1..];
        assert all[1..] == rest[1..];
        assert rest[0] in rest;
      } else {
        assert rest[0] in rest;
      }
    }
  }

  /** A part without the separator, then the separator, then more text. */
  lemma {:induction false} SplitHead(p: string, rest: string, sep: char)
    requires sep !in p
    ensures Split(p, sep) == [p]
    ensures Split(p + [sep] + rest, sep) == [p] + Split(rest, sep)
  {
    var s := p + [sep] + rest;
    if p == "" {
      assert s[1..] == rest;
    } else {
      SplitHead(p[1..], rest, sep);
      assert s[1..] == p[1..] + [sep] + rest;
      assert p == [p[0]] + p[1..];
    }
  }

  lemma {:induction false} SplitJoin(parts: seq<string>, sep: char)
    requires parts != [] && forall p :: p in parts ==> sep !in p
    ensures Split(Join(parts, sep), sep) == parts
  {
    assert parts == [parts[0]] + parts[1..];
    if |parts| == 1 {
      SplitHead(parts[0], "", sep);
    } else {
      SplitJoin(parts[1..], sep);
      SplitHead(parts[0], Join(parts[1..], sep), sep);
    }
  }

  // ---- white space ----

  predicate IsSpace(c: char) {
    c in {' ', '\t', '\n', '\r'} || c as int in {0x0B, 0x0C, 0x85, 0xA0, 0x1680, 0x2028, 0x2029, 0x202F, 0x205F, 0x3000}
    || 0x2000 <= c as int <= 0x200A
  }

  function TrimLeft(s: string): string {
    if s != "" && IsSpace(s[0]) then TrimLeft(s[1..]) else s
  }

  function TrimRight(s: string): string {
    if s != "" && IsSpace(s[|s| - 1]) then TrimRight(s[..|s| - 1]) else s
  }

  function TrimSpace(s: string): string { TrimRight(TrimLeft(s)) }

  predicate Blank(s: string) { forall i :: 0 <= i < |s| ==> IsSpace(s[i]) }

  lemma {:induction false} TrimLeftCuts(s: string)
    ensures |TrimLeft(s)| <= |s| && TrimLeft(s) == s[|s| - |TrimLeft(s)|..]
    ensures TrimLeft(s) == "" <==> Blank(s)
    ensures TrimLeft(s) != "" ==> !IsSpace(TrimLeft(s)[0])
    ensures Blank(s[..|s| - |TrimLeft(s)|])
  {
    if s != "" && IsSpace(s[0]) {
      TrimLeftCuts(s[1..]);
      assert s == [s[0]] + s[1..];
      assert s[..|s| - |TrimLeft(s)|] == [s[0]] + s[1..][..|s| - 1 - |TrimLeft(s)|];
    }
  }

  lemma {:induction false} TrimRightCuts(s: string)
    ensures |TrimRight(s)| <= |s| && TrimRight(s) == s[..|TrimRight(s)|]
    ensures TrimRight(s) == "" <==> Blank(s)
    ensures TrimRight(s) != "" ==> !IsSpace(TrimRight(s)[|TrimRight(s)| - 1])
    ensures Blank(s[|TrimRight(s)|..])
  {
    if s != "" && IsSpace(s[|s| - 1]) {
      TrimRightCuts(s[..|s| - 1]);
      assert s == s[..|s| - 1] + [s[|s| - 1]];
      assert s[|TrimRight(s)|..] == s[..|s| - 1][|TrimRight(s)|..] + [s[|s| - 1]];
    }
  }

  /** Trimming leaves nothing exactly of a blank string, and otherwise starts
      and ends with a character that is not space; only space is cut. */
  lemma TrimSpaceIs(s: string)
    ensures TrimSpace(s) == "" <==> Blank(s)
    ensures TrimSpace(s) != "" ==> !IsSpace(TrimSpace(s)[0]) && !IsSpace(TrimSpace(s)[|TrimSpace(s)| - 1])
    ensures exists i, j :: 0 <= i <= j <= |s| && TrimSpace(s) == s[i..j] && Blank(s[..i]) && Blank(s[j..])
  {
    TrimLeftCuts(s);
    TrimRightCuts(TrimLeft(s));
    var i := |s| - |TrimLeft(s)|;
    var j := i + |TrimSpace(s)|;
    assert TrimSpace(s) == s[i..j] && s[j..] == TrimLeft(s)[|TrimSpace(s)|..];
  }

  lemma {:induction false} TrimLeftDrops(before: string, rest: string)
    requires Blank(before) && (rest == "" || !IsSpace(rest[0]))
    ensures TrimLeft(before + rest) == rest
  {
    if before == "" {
      assert before + rest == rest;
    } else {
      assert (before + rest)[1..] == before[1..] + rest;
      TrimLeftDrops(before[1..], rest);
    }
  }

  lemma {:induction false} TrimRightDrops(rest: string, after: string)
    requires Blank(after) && (rest == "" || !IsSpace(rest[|rest| - 1]))
    ensures TrimRight(rest + after) == rest
  {
    if after == "" {
      assert rest + after == rest;
    } else {
      assert (rest + after)[..|rest + after| - 1] == rest + after[..|after| - 1];
      TrimRightDrops(rest, after[..|after| - 1]);
    }
  }

  /** Trimming takes the white space off both ends, all of it and nothing else. */
  lemma TrimmedIs(before: string, kept: string, after: string)
    requires Blank(before) && Blank(after)
    requires kept != "" && !IsSpace(kept[0]) && !IsSpace(kept[|kept| - 1])
    ensures TrimSpace(before + kept + after) == kept
  {
    assert before + kept + after == before + (kept + after);
    TrimLeftDrops(before, kept + after);
    TrimRightDrops(kept, after);
  }

  lemma TrimSpaceKeeps(s: string)
    requires s != "" && !IsSpace(s[0]) && !IsSpace(s[|s| - 1])
    ensures TrimSpace(s) == s
  {}

  // ---- strconv.Itoa and strconv.Atoi for a 64-bit int ----

  const MAX_INT := 0x7FFF_FFFF_FFFF_FFFF

  predicate IsDigit(c: char) { '0' <= c <= '9' }

  function Itoa(n: nat): (s: string)
    ensures s != "" && forall i :: 0 <= i < |s| ==> IsDigit(s[i])
  {
    var last := ['0' + (n % 10) as char];
    if n < 10 then last else Itoa(n / 10) + last
  }

  function Digits(s: string): (d: Option<int>)
    ensures d.Some? ==> d.value >= 0
  {
    if s == "" then None
    else if !IsDigit(s[|s| - 1]) then None
    else if |s| == 1 then Some(s[0] as int - '0' as int)
    else
      var rest := Digits(s[..|s| - 1]);
      if rest.None? then None else Some(rest.value * 10 + (s[|s| - 1] as int - '0' as int))
  }

  function Atoi(s: string): Option<int> {
    if s == "" then None
    else
      var d := Digits(if s[0] == '-' || s[0] == '+' then s[1..] else s);
      if d.None? then None
      else
        var n: int := if s[0] == '-' then -d.value else d.value;
        if -MAX_INT - 1 <= n <= MAX_INT then Some(n) else None
  }

  lemma {:induction false} DigitsItoa(n: nat)
    ensures Digits(Itoa(n)) == Some(n)
  {
    if n >= 10 {
      DigitsItoa(n / 10);
      assert Itoa(n)[..|Itoa(n)| - 1] == Itoa(n / 10);
    }
  }

  lemma AtoiItoa(n: nat)
    requires n <= MAX_INT
    ensures Atoi(Itoa(n)) == Some(n)
  {
    DigitsItoa(n);
  }

  lemma SignSplits(sign: char, digits: string)
    requires digits != "" && sign in {'-', '+'} && IsDigit(digits[0])
    ensures Atoi([sign] + digits) ==
      var d := Digits(digits);
      if d.None? then None
      else
        var n: int := if sign == '-' then -d.value else d.value;
        if -MAX_INT - 1 <= n <= MAX_INT then Some(n) else None
  {
    assert ([sign] + digits)[1..] == digits;
  }

  /** A sign is read; a number outside 64 bits is not. */
  lemma AtoiSigned(n: int)
    requires n >= 0
    ensures Atoi("-" + Itoa(n)) == if n <= 0x8000_0000_0000_0000 then Some(-n) else None
    ensures Atoi("+" + Itoa(n)) == if n <= 0x7FFF_FFFF_FFFF_FFFF then Some(n) else None
    ensures Atoi(Itoa(n)) == if n <= 0x7FFF_FFFF_FFFF_FFFF then Some(n) else None
  {
    DigitsItoa(n);
    assert IsDigit(Itoa(n)[0]);
    SignSplits('-', Itoa(n));
    SignSplits('+', Itoa(n));
  }

  // ---- strings.IndexByte used to cut ----

  /** The part before the first c; all of s when there is none. */
  function UpTo(s: string, c: char): string {
    if s == "" || s[0] == c then "" else [s[0]] + UpTo(s[1..], c)
  }

  lemma {:induction false} UpToIs(s: string, c: char)
    ensures UpTo(s, c) <= s && c !in UpTo(s, c)
    ensures |UpTo(s, c)| < |s| ==> s[|UpTo(s, c)|] == c
    ensures UpTo(s, c) == s <==> c !in s
  {
    if s != "" && s[0] != c {
      UpToIs(s[1..], c);
      assert s == [s[0]] + s[1..];
    }
  }

  /** strings.Cut's right part: the text after the first c, empty when there is none. */
  function AfterFirst(s: string, c: char): string {
    if s == "" then "" else if s[0] == c then s[1..] else AfterFirst(s[1..], c)
  }

  lemma {:induction false} AfterFirstIs(s: string, c: char)
    ensures c in s ==> s == UpTo(s, c) + [c] + AfterFirst(s, c)
    ensures c !in s ==> AfterFirst(s, c) == ""
    ensures forall i :: 0 <= i < |AfterFirst(s, c)| ==> AfterFirst(s, c)[i] in s
  {
    if s != "" && s[0] != c {
      AfterFirstIs(s[1..], c);
      assert s == [s[0]] + s[1..];
    }
  }

  lemma {:induction false} CutAt(p: string, rest: string, c: char)
    requires c !in p
    ensures UpTo(p, c) == p && AfterFirst(p, c) == ""
    ensures UpTo(p + [c] + rest, c) == p && AfterFirst(p + [c] + rest, c) == rest
  {
    var s := p + [c] + rest;
    if p == "" {
      assert s[1..] == rest;
    } else {
      CutAt(p[1..], rest, c);
      assert s[1..] == p[1..] + [c] + rest;
      assert p == [p[0]] + p[1..];
    }
  }

  // ---- strings.Fields ----

  function Word(s: string): string {
    if s == "" || IsSpace(s[0]) then "" else [s[0]] + Word(s[1..])
  }

  lemma {:induction false} WordIs(s: string)
    ensures Word(s) <= s && forall i :: 0 <= i < |Word(s)| ==> !IsSpace(Word(s)[i])
    ensures s != "" && !IsSpace(s[0]) ==> Word(s) != ""
  {
    if s != "" && !IsSpace(s[0]) {
      WordIs(s[1..]);
      assert s == [s[0]] + s[1..];
    }
  }

  function Fields(s: string): seq<string>
    decreases |s|
  {
    if s == "" then []
    else if IsSpace(s[0]) then Fields(s[1..])
    else
      WordIs(s);
      [Word(s)] + Fields(s[|Word(s)|..])
  }

  lemma {:induction false} FieldsAreWords(s: string, f: string)
    requires f in Fields(s)
    ensures f != "" && forall i :: 0 <= i < |f| ==> !IsSpace(f[i])
    decreases |s|
  {
    if IsSpace(s[0]) {
      FieldsAreWords(s[1..], f);
    } else {
      WordIs(s);
      if f != Word(s) { FieldsAreWords(s[|Word(s)|..], f); }
    }
  }

  function Unspaced(s: string): string {
    if s == "" then "" else (if IsSpace(s[0]) then "" else [s[0]]) + Unspaced(s[1..])
  }

  function Glued(words: seq<string>): string { if words == [] then "" else words[0] + Glued(words[1..]) }

  /** The words are the text without its white space. */
  lemma {:induction false} FieldsLoseNothing(s: string)
    ensures Glued(Fields(s)) == Unspaced(s)
    decreases |s|
  {
    if s != "" {
      if IsSpace(s[0]) {
        FieldsLoseNothing(s[1..]);
      } else {
        WordIs(s);
        FieldsLoseNothing(s[|Word(s)|..]);
        WordUnspaced(s);
      }
    }
  }

  lemma {:induction false} WordUnspaced(s: string)
    ensures |Word(s)| <= |s| && Unspaced(s) == Word(s) + Unspaced(s[|Word(s)|..])
  {
    if s != "" && !IsSpace(s[0]) {
      WordUnspaced(s[1..]);
      assert s[|Word(s)|..] == s[1..][|Word(s[1..])|..];
    } else {
      assert s[0..] == s;
    }
  }

  /** A word with white space before it and after it is one of the fields. */
  lemma {:induction false} WordStands(w: string, rest: string)
    requires w != "" && forall i :: 0 <= i < |w| ==> !IsSpace(w[i])
    requires rest == "" || IsSpace(rest[0])
    ensures Fields(w + rest) == [w] + Fields(rest)
  {
    WordOf(w, rest);
    assert (w + rest)[|w|..] == rest;
  }

  lemma {:induction false} WordOf(w: string, rest: string)
    requires forall i :: 0 <= i < |w| ==> !IsSpace(w[i])
    requires rest == "" || IsSpace(rest[0])
    ensures Word(w + rest) == w
  {
    if w == "" {
      assert w + rest == rest;
    } else {
      assert (w + rest)[1..] == w[1..] + rest;
      WordOf(w[1..], rest);
    }
  }
}
