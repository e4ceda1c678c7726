/** The Python `str` primitives that the client relies on: `isspace`,
    `lower`, `strip`, `split()` without arguments and `sep.join`. */
module Strings {

  /** `str.isspace` for one character: the characters Python treats as
      whitespace (Unicode White_Space plus the ASCII separators 0x1C-0x1F). */
  predicate IsSpace(c: char)
  {
    var n := c as int;
    || n == 0x20 || 0x09 <= n <= 0x0D || 0x1C <= n <= 0x1F
    || n == 0x85 || n == 0xA0 || n == 0x1680 || 0x2000 <= n <= 0x200A
    || n == 0x2028 || n == 0x2029 || n == 0x202F || n == 0x205F || n == 0x3000
  }

  predicate SpaceFree(s: string)
  {
    forall i :: 0 <= i < |s| ==> !IsSpace(s[i])
  }

  predicate AllSpace(s: string)
  {
    forall i :: 0 <= i < |s| ==> IsSpace(s[i])
  }

  /** `str.lower` restricted to ASCII: 'A'..'Z' become 'a'..'z'. */
  function LowerChar(c: char): char
  {
    if 'A' <= c <= 'Z' then (c as int + 32) as char else c
  }

  function Lower(s: string): string
  {
    seq(|s|, i requires 0 <= i < |s| => LowerChar(s[i]))
  }

  /** Lower-casing never turns a visible character into whitespace or back,
      and a lower-cased character stays put when lower-cased again. */
  lemma LowerCharFacts(c: char)
    ensures IsSpace(LowerChar(c)) <==> IsSpace(c)
    ensures LowerChar(LowerChar(c)) == LowerChar(c)
  {
  }

  /** How many whitespace characters `str.lstrip()` removes. */
  function LeadingSpaces(s: string): (k: nat)
    decreases |s|
    ensures k <= |s|
    ensures forall i :: 0 <= i < k ==> IsSpace(s[i])
    ensures k < |s| ==> !IsSpace(s[k])
  {
    if s != [] && IsSpace(s[0]) then 1 + LeadingSpaces(s[1..]) else 0
  }

  /** How long the string is once `str.rstrip()` has removed its trailing
      whitespace. */
  function TrimmedLength(s: string): (n: nat)
    decreases |s|
    ensures n <= |s|
    ensures forall i :: n <= i < |s| ==> IsSpace(s[i])
    ensures n > 0 ==> !IsSpace(s[n - 1])
  {
    if s != [] && IsSpace(s[|s| - 1]) then TrimmedLength(s[..|s| - 1]) else |s|
  }

  /** `str.lstrip()`. */
  function TrimStart(s: string): string
  {
    s[LeadingSpaces(s)..]
  }

  /** `str.strip()`. */
  function Strip(s: string): string
  {
    var t := TrimStart(s);
    t[..TrimmedLength(t)]
  }

  /** Stripping leaves a blank string exactly when the input is all whitespace. */
  lemma StripEmptyIff(s: string)
    ensures Strip(s) == [] <==> AllSpace(s)
  {
  }

  /** A string that neither starts nor ends with whitespace is its own strip. */
  lemma StripTrimmed(s: string)
    requires s != [] && !IsSpace(s[0]) && !IsSpace(s[|s| - 1])
    ensures Strip(s) == s
  {
    assert LeadingSpaces(s) == 0;
    assert TrimStart(s) == s;
  }

  /** The length of the longest whitespace-free prefix: the word `split()`
      cuts off next. */
  function WordLength(s: string): (n: nat)
    decreases |s|
    ensures n <= |s|
    ensures forall i :: 0 <= i < n ==> !IsSpace(s[i])
    ensures n < |s| ==> IsSpace(s[n])
  {
    if s == [] || IsSpace(s[0]) then 0 else 1 + WordLength(s[1..])
  }

  /** `str.split()` without arguments: the maximal runs of non-whitespace,
      in order, with every run of whitespace acting as one separator and
      leading or trailing whitespace producing no empty word. */
  function Split(s: string): seq<string>
    decreases |s|
  {
    var t := TrimStart(s);
    if t == [] then []
    else
      var n := WordLength(t);
      [t[..n]] + Split(t[n..])
  }

  /** The characters of `s` that are not whitespace, in order. */
  function Visible(s: string): string
  {
    if s == [] then [] else (if IsSpace(s[0]) then [] else [s[0]]) + Visible(s[1..])
  }

  /** The words glued together with nothing between them; the same string
      as `Join("", ws)` (see `ConcatIsJoin`), written so that its recursion
      follows one word at a time. */
  function Concat(ws: seq<string>): string
  {
    if ws == [] then [] else ws[0] + Concat(ws[1..])
  }

  lemma {:induction false} VisibleAppend(a: string, b: string)
    ensures Visible(a + b) == Visible(a) + Visible(b)
  {
    if a != [] {
      assert (a + b)[0] == a[0];
      assert (a + b)[1..] == a[1..] + b;
      VisibleAppend(a[1..], b);
      calc {
        Visible(a + b);
        (if IsSpace(a[0]) then [] else [a[0]]) + Visible(a[1..] + b);
        (if IsSpace(a[0]) then [] else [a[0]]) + (Visible(a[1..]) + Visible(b));
        ((if IsSpace(a[0]) then [] else [a[0]]) + Visible(a[1..])) + Visible(b);
        Visible(a) + Visible(b);
      }
    } else {
      assert a + b == b;
    }
  }

  lemma {:induction false} VisibleOfSpaces(s: string)
    requires AllSpace(s)
    ensures Visible(s) == []
  {
    if s != [] {
      VisibleOfSpaces(s[1..]);
    }
  }

  lemma {:induction false} VisibleOfWord(s: string)
    requires SpaceFree(s)
    ensures Visible(s) == s
  {
    if s != [] {
      VisibleOfWord(s[1..]);
    }
  }

  /** The words of `split()` are non-empty and contain no whitespace. */
  lemma {:induction false} SplitWordsVisible(s: string)
    ensures forall i :: 0 <= i < |Split(s)| ==> Split(s)[i] != [] && SpaceFree(Split(s)[i])
    decreases |s|
  {
    var t := TrimStart(s);
    if t != [] {
      var n := WordLength(t);
      SplitWordsVisible(t[n..]);
      assert Split(s) == [t[..n]] + Split(t[n..]);
    }
  }

  /** Cutting off the leading whitespace and the first word of `split()`
      loses no visible character. */
  lemma SplitStep(s: string, k: nat, n: nat)
    requires k == LeadingSpaces(s) && n == WordLength(s[k..])
    ensures Visible(s) == s[k..][..n] + Visible(s[k..][n..])
  {
    var t := s[k..];
    var pad := s[..k];
    var w := t[..n];
    var rest := t[n..];
    assert s == pad + t;
    assert t == w + rest;
    VisibleOfSpaces(pad);
    VisibleOfWord(w);
    calc {
      Visible(s);
      Visible(pad + t);
      { VisibleAppend(pad, t); }
      Visible(pad) + Visible(t);
      Visible(t);
      Visible(w + rest);
      { VisibleAppend(w, rest); }
      Visible(w) + Visible(rest);
    }
  }

  /** Together the words of `split()` spell out exactly the non-whitespace
      characters of the input, in order. */
  lemma {:induction false} SplitConcat(s: string)
    ensures Concat(Split(s)) == Visible(s)
    decreases |s|
  {
    var k := LeadingSpaces(s);
    var t := TrimStart(s);
    if t == [] {
      assert s == s[..k];
      VisibleOfSpaces(s);
    } else {
      var n := WordLength(t);
      var w, rest := t[..n], t[n..];
      var ws := Split(rest);
      assert Split(s) == [w] + ws;
      assert ([w] + ws)[1..] == ws;
      calc {
        Concat(Split(s));
        Concat([w] + ws);
        w + Concat(ws);
        { SplitConcat(rest); }
        w + Visible(rest);
        { SplitStep(s, k, n); }
        Visible(s);
      }
    }
  }

  /** A non-empty string without whitespace is a single word; an all-blank
      string has none. */
  lemma SplitSpaceFree(s: string)
    requires SpaceFree(s)
    ensures Split(s) == if s == [] then [] else [s]
  {
    if s != [] {
      assert LeadingSpaces(s) == 0;
      assert TrimStart(s) == s;
      assert WordLength(s) == |s|;
      assert s[..|s|] == s;
      assert s[|s|..] == [];
    }
  }

  /** `LeadingSpaces` is the length of the whitespace run at the start. */
  lemma {:induction false} LeadingSpacesExact(s: string, k: nat)
    requires k <= |s| && AllSpace(s[..k])
    requires k < |s| ==> !IsSpace(s[k])
    ensures LeadingSpaces(s) == k
  {
    if k > 0 {
      assert s[0] == s[..k][0];
      assert s[1..][..k - 1] == s[..k][1..];
      LeadingSpacesExact(s[1..], k - 1);
    }
  }

  /** `WordLength` is the length of the whitespace-free run at the start. */
  lemma {:induction false} WordLengthExact(s: string, n: nat)
    requires n <= |s| && SpaceFree(s[..n])
    requires n < |s| ==> IsSpace(s[n])
    ensures WordLength(s) == n
  {
    if n > 0 {
      assert s[0] == s[..n][0];
      assert s[1..][..n - 1] == s[..n][1..];
      WordLengthExact(s[1..], n - 1);
    }
  }

  /** A word followed by whitespace (or by nothing) is the first word. */
  lemma SplitFirstWord(w: string, rest: string)
    requires w != [] && SpaceFree(w)
    requires rest != [] ==> IsSpace(rest[0])
    ensures Split(w + rest) == [w] + Split(rest)
  {
    var s := w + rest;
    assert s[..0] == [];
    LeadingSpacesExact(s, 0);
    assert TrimStart(s) == s;
    assert s[..|w|] == w;
    WordLengthExact(s, |w|);
    assert s[|w|..] == rest;
  }

  /** Leading whitespace produces no word. */
  lemma SplitSkipSpace(pad: string, rest: string)
    requires AllSpace(pad)
    requires rest != [] ==> !IsSpace(rest[0])
    ensures Split(pad + rest) == Split(rest)
  {
    var s := pad + rest;
    assert s[..|pad|] == pad;
    LeadingSpacesExact(s, |pad|);
    assert TrimStart(s) == rest;
    assert rest[..0] == [];
    LeadingSpacesExact(rest, 0);
    assert TrimStart(rest) == rest;
  }

  /** `sep.join(ws)`. */
  function Join(sep: string, ws: seq<string>): string
  {
    if ws == [] then []
    else if |ws| == 1 then ws[0]
    else ws[0] + sep + Join(sep, ws[1..])
  }

  /** Joining with the empty separator is plain concatenation. */
  lemma {:induction false} ConcatIsJoin(ws: seq<string>)
    ensures Concat(ws) == Join("", ws)
  {
    if |ws| > 1 {
      ConcatIsJoin(ws[1..]);
      assert ws[0] + "" == ws[0];
    } else if |ws| == 1 {
      assert ws[1..] == [];
    }
  }

  /** Any property every character of the separator and of the words has,
      every character of the joined string has. */
  lemma {:induction false} JoinKeeps(sep: string, ws: seq<string>, p: char -> bool)
    requires forall i :: 0 <= i < |sep| ==> p(sep[i])
    requires forall j, i :: 0 <= j < |ws| && 0 <= i < |ws[j]| ==> p(ws[j][i])
    ensures forall i :: 0 <= i < |Join(sep, ws)| ==> p(Join(sep, ws)[i])
  {
    if |ws| > 1 {
      JoinKeeps(sep, ws[1..], p);
      var a := ws[0] + sep;
      var r := Join(sep, ws[1..]);
      forall i | 0 <= i < |a + r| ensures p((a + r)[i]) {
        if i < |ws[0]| {
          assert (a + r)[i] == ws[0][i];
        } else if i < |a| {
          assert (a + r)[i] == sep[i - |ws[0]|];
        } else {
          assert (a + r)[i] == r[i - |a|];
        }
      }
    } else if |ws| == 1 {
      assert Join(sep, ws) == ws[0];
    }
  }
}
