/** Strings as the gateway's Rust code uses them: splitting, joining, trimming. */
module Text {

  lemma Glue<T>(a: seq<T>, b: seq<T>, c: seq<T>)
    ensures a + b + c == a + (b + c)
  {
  }

  lemma Uncons<T>(s: seq<T>)
    requires s != []
    ensures [s[0]] + s[1..] == s
  {
  }

  lemma SplitAt<T>(s: seq<T>, i: nat)
    requires i < |s|
    ensures s == s[..i] + [s[i]] + s[i + 1..]
  {
  }

  lemma SomeMember<T>(s: seq<T>)
    ensures s != [] ==> exists x :: x in s
  {
    if s != [] {
      assert s[0] in s;
    }
  }

  ghost predicate Distinct<T(!new)>(s: seq<T>) {
    forall i, j :: 0 <= i < j < |s| ==> s[i] != s[j]
  }

  /** `str::split(c)`: always at least one part. */
  function SplitOn<T(==)>(s: seq<T>, c: T): (parts: seq<seq<T>>)
    ensures |parts| >= 1
  {
    if s == [] then [[]]
    else
      var rest := SplitOn(s[1..], c);
      if s[0] == c then [[]] + rest else [[s[0]] + rest[0]] + rest[1..]
  }

  /** `[_]::join(c)` for a one-element separator. */
  function JoinWith<T>(parts: seq<seq<T>>, c: T): seq<T> {
    if parts == [] then []
    else if |parts| == 1 then parts[0]
    else parts[0] + [c] + JoinWith(parts[1..], c)
  }

  ghost predicate Without<T>(s: seq<T>, c: T) {
    forall i :: 0 <= i < |s| ==> s[i] != c
  }

  lemma {:induction false} SplitOnPrefix<T>(a: seq<T>, s: seq<T>, c: T)
    requires Without(a, c)
    ensures SplitOn(a + s, c) == [a + SplitOn(s, c)[0]] + SplitOn(s, c)[1..]
  {
    if a == [] {
      assert a + s == s && a + SplitOn(s, c)[0] == SplitOn(s, c)[0];
    } else {
      assert (a + s)[1..] == a[1..] + s;
      SplitOnPrefix(a[1..], s, c);
      assert [a[0]] + (a[1..] + SplitOn(s, c)[0]) == a + SplitOn(s, c)[0];
    }
  }

  /** Splitting undoes joining exactly when no part holds the separator. */
  lemma {:induction false} SplitUndoesJoin<T>(parts: seq<seq<T>>, c: T)
    requires parts != []
    requires forall p :: p in parts ==> Without(p, c)
    ensures SplitOn(JoinWith(parts, c), c) == parts
  {
    if |parts| == 1 {
      SplitOnPrefix(parts[0], [], c);
      assert parts[0] + [] == parts[0];
    } else {
      var tail := [c] + JoinWith(parts[1..], c);
      SplitUndoesJoin(parts[1..], c);
      assert tail[1..] == JoinWith(parts[1..], c);
      SplitOnPrefix(parts[0], tail, c);
      assert parts[0] + [c] + JoinWith(parts[1..], c) == parts[0] + tail;
      assert parts[0] + [] == parts[0];
    }
  }

  /** `char::is_whitespace`: the Unicode White_Space property. */
  predicate IsSpace(c: char) {
    || '\t' <= c <= '\r' || c == ' ' || c == '\U{85}' || c == '\U{A0}' || c == '\U{1680}'
    || '\U{2000}' <= c <= '\U{200A}' || c == '\U{2028}' || c == '\U{2029}' || c == '\U{202F}'
    || c == '\U{205F}' || c == '\U{3000}'
  }

  const WHITE_SPACE: seq<int> := [
    0x9, 0xA, 0xB, 0xC, 0xD, 0x20, 0x85, 0xA0, 0x1680, 0x2000, 0x2001, 0x2002, 0x2003, 0x2004, 0x2005, 0x2006, 0x2007,
    0x2008, 0x2009, 0x200A, 0x2028, 0x2029, 0x202F, 0x205F, 0x3000]

  /** The 25 characters of the Unicode White_Space property, and no other one. */
  lemma SpaceExactly(c: char)
    ensures IsSpace(c) <==> c as int in WHITE_SPACE
  {
    if IsSpace(c) {
      var n := c as int;
      assert n in [0x9, 0xA, 0xB, 0xC, 0xD, 0x20, 0x85, 0xA0, 0x1680] || 0x2000 <= n <= 0x200A || n in [0x2028, 0x2029, 0x202F, 0x205F, 0x3000];
      if 0x2000 <= n <= 0x200A {
        assert WHITE_SPACE[9 + (n - 0x2000)] == n;
      }
    }
  }

  function TrimStart(s: string): string {
    if s != "" && IsSpace(s[0]) then TrimStart(s[1..]) else s
  }

  function TrimEnd(s: string): string {
    if s != "" && IsSpace(s[|s| - 1]) then TrimEnd(s[..|s| - 1]) else s
  }

  /** `str::trim`. */
  function Trim(s: string): string {
    TrimEnd(TrimStart(s))
  }

  /** What trimming leaves: it starts and ends with something other than white space. */
  predicate Trimmed(s: string) {
    s == "" || (!IsSpace(s[0]) && !IsSpace(s[|s| - 1]))
  }

  lemma {:induction false} TrimEndShape(s: string)
    ensures var r := TrimEnd(s); r <= s && (r == "" || !IsSpace(r[|r| - 1]))
  {
    if s != "" && IsSpace(s[|s| - 1]) {
      TrimEndShape(s[..|s| - 1]);
    }
  }

  lemma {:induction false} TrimStartShape(s: string)
    ensures var r := TrimStart(s);
      && |r| <= |s| && r == s[|s| - |r|..]
      && (r == "" || !IsSpace(r[0]))
  {
    if s != "" && IsSpace(s[0]) {
      TrimStartShape(s[1..]);
    }
  }

  lemma TrimIsTrimmed(s: string)
    ensures Trimmed(Trim(s)) && Trim(Trim(s)) == Trim(s)
    ensures forall c :: c in Trim(s) ==> c in s
  {
    TrimStartShape(s);
    TrimEndShape(TrimStart(s));
    TrimKeeps(Trim(s));
  }

  lemma {:induction false} TrimEndOnlySpace(s: string)
    ensures TrimEnd(s) == "" <==> forall c :: c in s ==> IsSpace(c)
  {
    if s != "" && IsSpace(s[|s| - 1]) {
      TrimEndOnlySpace(s[..|s| - 1]);
      assert s == s[..|s| - 1] + [s[|s| - 1]];
    }
  }

  lemma {:induction false} TrimStartOnlySpace(s: string)
    ensures (forall c :: c in TrimStart(s) ==> IsSpace(c)) <==> forall c :: c in s ==> IsSpace(c)
  {
    if s != "" && IsSpace(s[0]) {
      TrimStartOnlySpace(s[1..]);
      Uncons(s);
    }
  }

  predicate AllSpace(s: string) {
    forall i :: 0 <= i < |s| ==> IsSpace(s[i])
  }

  lemma {:induction false} TrimStartDrops(s: string) returns (before: string)
    ensures s == before + TrimStart(s) && AllSpace(before)
  {
    before := "";
    if s != "" && IsSpace(s[0]) {
      var rest := TrimStartDrops(s[1..]);
      before := [s[0]] + rest;
      assert s == [s[0]] + (rest + TrimStart(s[1..]));
    }
  }

  lemma {:induction false} TrimEndDrops(s: string) returns (after: string)
    ensures s == TrimEnd(s) + after && AllSpace(after)
  {
    after := "";
    if s != "" && IsSpace(s[|s| - 1]) {
      var rest := TrimEndDrops(s[..|s| - 1]);
      after := rest + [s[|s| - 1]];
      assert s == (TrimEnd(s[..|s| - 1]) + rest) + [s[|s| - 1]];
    }
  }

  /** Trimming takes white space off the two ends and nothing else. */
  lemma TrimDrops(s: string)
    ensures exists before, after :: AllSpace(before) && AllSpace(after) && s == before + Trim(s) + after
  {
    var before := TrimStartDrops(s);
    var after := TrimEndDrops(TrimStart(s));
    Glue(before, Trim(s), after);
    assert AllSpace(before) && AllSpace(after) && s == before + Trim(s) + after;
  }

  /** A text without the white space at its two ends. */
  ghost predicate TrimmedFrom(t: string, text: string) {
    Trimmed(t) && exists before, after :: AllSpace(before) && AllSpace(after) && text == before + t + after
  }

  lemma TrimIsTrimmedFrom(text: string)
    ensures TrimmedFrom(Trim(text), text)
  {
    TrimIsTrimmed(text);
    TrimDrops(text);
  }

  /** Nothing is left exactly of a text that is all white space. */
  lemma TrimOnlyDropsSpace(s: string)
    ensures Trim(s) == "" <==> forall c :: c in s ==> IsSpace(c)
  {
    TrimStartOnlySpace(s);
    TrimEndOnlySpace(TrimStart(s));
  }

  lemma TrimKeeps(s: string)
    requires Trimmed(s)
    ensures Trim(s) == s
  {
  }

  /** `str::replace` of one quote character by two. */
  function DoubleUp(s: string, q: char): string {
    if s == "" then "" else (if s[0] == q then [q, q] else [s[0]]) + DoubleUp(s[1..], q)
  }

  function LowerChar(c: char): char {
    if 'A' <= c <= 'Z' then (c as nat + 32) as char else c
  }

  /** `str::to_ascii_lowercase`. */
  function LowerAscii(s: string): (r: string)
    ensures |r| == |s|
    ensures forall i :: 0 <= i < |s| ==> r[i] as int == s[i] as int + if 'A' <= s[i] <= 'Z' then 'a' as int - 'A' as int else 0
  {
    if s == "" then "" else [LowerChar(s[0])] + LowerAscii(s[1..])
  }

  /** `str::contains`. */
  predicate Contains(text: string, word: string) {
    word <= text || (text != "" && Contains(text[1..], word))
  }

  lemma {:induction false} ContainsExactly(text: string, word: string)
    ensures Contains(text, word) <==> exists before, after :: text == before + word + after
  {
    forall before, after | text == before + word + after
      ensures word <= text || (text != "" && exists b, a :: text[1..] == b + word + a)
    {
      if before == "" {
        assert text[..|word|] == word;
      } else {
        assert text[1..] == before[1..] + word + after;
      }
    }
    if word <= text {
      assert text == "" + word + text[|word|..];
    } else if text != "" {
      ContainsExactly(text[1..], word);
      if Contains(text[1..], word) {
        var before, after :| text[1..] == before + word + after;
        assert text == ([text[0]] + before) + word + after;
      }
    }
  }

  /** The text is some text, the word, and some text. */
  ghost predicate Includes(text: string, word: string) {
    exists before, after :: text == before + word + after
  }
}
