/** The JavaScript string operations the application uses: `toLowerCase`,
    `trim`, `includes`, `split`, `slice` on the split parts and `join`.
    Case mapping and the whitespace set are ASCII-only. */
module JsStrings {

  // ---------------------------------------------------------------------------
  // toLowerCase

  function LowerChar(c: char): char
  {
    if 'A' <= c <= 'Z' then (c as int + 32) as char else c
  }

  /** `s.toLowerCase()`, character by character. */
  function Lower(s: string): (r: string)
    ensures |r| == |s|
    ensures forall i :: 0 <= i < |s| ==> r[i] == LowerChar(s[i])
  {
    if s == [] then [] else [LowerChar(s[0])] + Lower(s[1..])
  }

  // ---------------------------------------------------------------------------
  // trim

  predicate IsSpace(c: char)
  {
    c == ' ' || c == '\t' || c == '\n' || c == '\r' || c == 11 as char || c == 12 as char
  }

  function TrimStart(s: string): string
  {
    if s != [] && IsSpace(s[0]) then TrimStart(s[1..]) else s
  }

  function TrimEnd(s: string): string
  {
    if s != [] && IsSpace(s[|s| - 1]) then TrimEnd(s[..|s| - 1]) else s
  }

  /** `s.trim()`. */
  function Trim(s: string): string
  {
    TrimStart(TrimEnd(s))
  }

  /** `!s.trim()`: the term is empty once trimmed. */
  predicate IsBlank(s: string)
  {
    Trim(s) == ""
  }

  predicate AllSpace(s: string)
  {
    forall i :: 0 <= i < |s| ==> IsSpace(s[i])
  }

  lemma {:induction false} TrimStartEmpty(s: string)
    ensures TrimStart(s) == "" <==> AllSpace(s)
  {
    if s != [] && IsSpace(s[0]) {
      TrimStartEmpty(s[1..]);
      assert forall i :: 1 <= i < |s| ==> s[i] == s[1..][i - 1];
    }
  }

  lemma {:induction false} TrimEndAllSpace(s: string)
    ensures AllSpace(TrimEnd(s)) <==> AllSpace(s)
    decreases |s|
  {
    if s != [] && IsSpace(s[|s| - 1]) {
      var init := s[..|s| - 1];
      TrimEndAllSpace(init);
      assert s == init + [s[|s| - 1]];
      assert AllSpace(s) <==> AllSpace(init);
    }
  }

  /** A term is blank exactly when every character is whitespace (so `''` is blank). */
  lemma BlankIffAllSpace(s: string)
    ensures IsBlank(s) <==> AllSpace(s)
  {
    TrimStartEmpty(TrimEnd(s));
    TrimEndAllSpace(s);
  }

  // ---------------------------------------------------------------------------
  // includes

  /** `s.includes(t)`: `t` occurs in `s` at some offset. */
  function Includes(s: string, t: string): bool
    decreases |s|
  {
    t <= s || (s != [] && Includes(s[1..], t))
  }

  /** `t` occurs in `s` starting at offset `k`. */
  predicate OccursAt(s: string, t: string, k: int)
  {
    0 <= k && k + |t| <= |s| && s[k..k + |t|] == t
  }

  /** `includes` agrees with the definition by offsets, in both directions. */
  lemma {:induction false} IncludesIffOccurs(s: string, t: string)
    ensures Includes(s, t) <==> exists k :: OccursAt(s, t, k)
    decreases |s|
  {
    if t <= s {
      assert OccursAt(s, t, 0);
    } else if s == [] {
    } else {
      IncludesIffOccurs(s[1..], t);
      if exists k :: OccursAt(s, t, k) {
        var k :| OccursAt(s, t, k);
        assert k != 0;
        assert OccursAt(s[1..], t, k - 1);
      }
      if Includes(s[1..], t) {
        var k :| OccursAt(s[1..], t, k);
        assert OccursAt(s, t, k + 1);
      }
    }
  }

  lemma IncludesPrefix(s: string, t: string)
    requires t <= s
    ensures Includes(s, t)
  {
  }

  // ---------------------------------------------------------------------------
  // split, slice, join

  /** Number of occurrences of `c` in `s`. */
  function Count(s: string, c: char): nat
  {
    if s == [] then 0 else (if s[0] == c then 1 else 0) + Count(s[1..], c)
  }

  lemma {:induction false} CountAppend(a: string, b: string, c: char)
    ensures Count(a + b, c) == Count(a, c) + Count(b, c)
  {
    if a != [] {
      assert (a + b)[1..] == a[1..] + b;
      CountAppend(a[1..], b, c);
    } else {
      assert a + b == b;
    }
  }

  lemma {:induction false} CountAbsent(s: string, c: char)
    requires c !in s
    ensures Count(s, c) == 0
  {
    if s != [] {
      CountAbsent(s[1..], c);
    }
  }

  lemma {:induction false} CountLower(s: string)
    ensures Count(Lower(s), ' ') == Count(s, ' ')
  {
    if s != [] {
      CountLower(s[1..]);
      assert Lower(s)[1..] == Lower(s[1..]);
    }
  }

  /** `s.split(sep)` for a one-character separator: every occurrence of `sep`
      cuts, so adjacent separators give empty parts and `''` gives `['']`. */
  function Split(s: string, sep: char): (parts: seq<string>)
    ensures |parts| == Count(s, sep) + 1
    ensures forall i :: 0 <= i < |parts| ==> sep !in parts[i]
    decreases |s|
  {
    if s == [] then [""]
    else
      var rest := Split(s[1..], sep);
      if s[0] == sep then [""] + rest
      else [[s[0]] + rest[0]] + rest[1..]
  }

  /** `parts.slice(0, n)`. */
  function Take(parts: seq<string>, n: nat): (r: seq<string>)
    ensures |r| == if n < |parts| then n else |parts|
    ensures r <= parts
  {
    if n < |parts| then parts[..n] else parts
  }

  /** `parts.join(sep)`; `[].join(sep)` is `''`. */
  function Join(parts: seq<string>, sep: char): string
  {
    if |parts| == 0 then ""
    else if |parts| == 1 then parts[0]
    else parts[0] + [sep] + Join(parts[1..], sep)
  }

  lemma JoinConsFirst(c: char, a: string, rest: seq<string>, sep: char)
    ensures Join([[c] + a] + rest, sep) == [c] + Join([a] + rest, sep)
  {
    var l := [[c] + a] + rest;
    var r := [a] + rest;
    assert l[1..] == rest && r[1..] == rest;
  }

  /** Splitting then joining with the same separator gives back the string. */
  lemma {:induction false} JoinSplit(s: string, sep: char)
    ensures Join(Split(s, sep), sep) == s
    decreases |s|
  {
    if s != [] {
      var rest := Split(s[1..], sep);
      JoinSplit(s[1..], sep);
      if s[0] == sep {
        assert ([""] + rest)[1..] == rest;
      } else {
        JoinConsFirst(s[0], rest[0], rest[1..], sep);
        assert [rest[0]] + rest[1..] == rest;
      }
    }
  }

  /** Joining the first `n >= 1` split parts gives a prefix of the string. */
  lemma {:induction false} JoinTakeSplitPrefix(s: string, sep: char, n: nat)
    requires n >= 1
    ensures Join(Take(Split(s, sep), n), sep) <= s
    decreases |s|
  {
    if s != [] {
      var rest := Split(s[1..], sep);
      if s[0] == sep {
        if n > 1 {
          JoinTakeSplitPrefix(s[1..], sep, n - 1);
          assert Take([""] + rest, n) == [""] + Take(rest, n - 1);
          assert ([""] + Take(rest, n - 1))[1..] == Take(rest, n - 1);
        } else {
          assert Take([""] + rest, n) == [""];
        }
      } else {
        JoinTakeSplitPrefix(s[1..], sep, n);
        var t := Take(rest, n);
        assert Take([[s[0]] + rest[0]] + rest[1..], n) == [[s[0]] + t[0]] + t[1..];
        JoinConsFirst(s[0], t[0], t[1..], sep);
        assert [t[0]] + t[1..] == t;
      }
    }
  }

  /** Joining the first `n >= 1` split parts stops at the end of the string
      or just before a separator. */
  lemma {:induction false} JoinTakeSplitEnds(s: string, sep: char, n: nat)
    requires n >= 1
    ensures var j := Join(Take(Split(s, sep), n), sep);
            j == s || (|j| < |s| && s[|j|] == sep)
    decreases |s|
  {
    if s != [] {
      var rest := Split(s[1..], sep);
      if s[0] == sep {
        if n > 1 {
          JoinTakeSplitEnds(s[1..], sep, n - 1);
          var t := Take(rest, n - 1);
          assert Take([""] + rest, n) == [""] + t;
          assert ([""] + t)[1..] == t;
        } else {
          assert Take([""] + rest, n) == [""];
        }
      } else {
        JoinTakeSplitEnds(s[1..], sep, n);
        var t := Take(rest, n);
        assert Take([[s[0]] + rest[0]] + rest[1..], n) == [[s[0]] + t[0]] + t[1..];
        JoinConsFirst(s[0], t[0], t[1..], sep);
        assert [t[0]] + t[1..] == t;
      }
    }
  }

  /** A join of parts that hold no separator has one separator fewer than parts. */
  lemma {:induction false} JoinCount(parts: seq<string>, sep: char)
    requires |parts| >= 1
    requires forall i :: 0 <= i < |parts| ==> sep !in parts[i]
    ensures Count(Join(parts, sep), sep) == |parts| - 1
  {
    CountAbsent(parts[0], sep);
    if |parts| > 1 {
      JoinCount(parts[1..], sep);
      CountAppend(parts[0], [sep], sep);
      CountAppend(parts[0] + [sep], Join(parts[1..], sep), sep);
    }
  }

  /** `s.split(' ').slice(0, 2).join(' ')`: the first two space-separated
      words, that is, `s` up to (not including) its second space. */
  function FirstTwoWords(s: string): (r: string)
    ensures r <= s
    ensures r == s || (|r| < |s| && s[|r|] == ' ')
    ensures Count(r, ' ') == if Count(s, ' ') == 0 then 0 else 1
    ensures Count(s, ' ') <= 1 ==> r == s
    ensures s != "" ==> r != ""
  {
    var parts := Split(s, ' ');
    JoinTakeSplitPrefix(s, ' ', 2);
    JoinTakeSplitEnds(s, ' ', 2);
    JoinCount(Take(parts, 2), ' ');
    JoinSplit(s, ' ');
    Join(Take(parts, 2), ' ')
  }

  // ---------------------------------------------------------------------------
  // Number to decimal text, as in a template literal `${n}`

  function DigitChar(d: nat): char
    requires d < 10
  {
    "0123456789"[d]
  }

  function NatToString(n: nat): (r: string)
    ensures |r| >= 1
  {
    if n < 10 then [DigitChar(n)] else NatToString(n / 10) + [DigitChar(n % 10)]
  }
}
