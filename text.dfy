/**
  The string operations the pages use: `toLowerCase`, `includes`, `trim`,
  `split` on one character and `join`.
*/
module Text {

  /** `toLowerCase` on one character, restricted to the ASCII letters. */
  function LowerChar(c: char): (r: char)
    ensures !('A' <= r <= 'Z')
    ensures 'A' <= c <= 'Z' ==> 'a' <= r <= 'z' && r as int - c as int == 'a' as int - 'A' as int
    ensures !('A' <= c <= 'Z') ==> r == c
  {
    if 'A' <= c <= 'Z' then (c as int + 32) as char else c
  }

  /** `toLowerCase` on a string: same length, each character lowered, no capital left. */
  function Lower(s: string): (r: string)
    ensures |r| == |s|
    ensures forall i | 0 <= i < |r| :: r[i] == LowerChar(s[i]) && !('A' <= r[i] <= 'Z')
  {
    seq(|s|, i requires 0 <= i < |s| => LowerChar(s[i]))
  }

  /** Lowering twice is lowering once. */
  lemma LowerIdempotent(s: string)
    ensures Lower(Lower(s)) == Lower(s)
  {
    forall i | 0 <= i < |s| ensures Lower(Lower(s))[i] == Lower(s)[i] {
      assert !('A' <= Lower(s)[i] <= 'Z');
    }
  }

  /** `needle` appears in `hay` at some position. */
  ghost predicate Occurs(needle: string, hay: string)
  {
    exists i :: 0 <= i <= |hay| && needle <= hay[i..]
  }

  /** `hay.includes(needle)`: a left-to-right scan for `needle`. */
  function Includes(hay: string, needle: string): (b: bool)
    ensures b <==> Occurs(needle, hay)
  {
    if needle <= hay then
      assert hay[0..] == hay;
      true
    else if hay == [] then
      false
    else
      var b := Includes(hay[1..], needle);
      assert b ==> Occurs(needle, hay) by {
        if b {
          var i :| 0 <= i <= |hay[1..]| && needle <= hay[1..][i..];
          assert hay[1..][i..] == hay[i + 1..];
        }
      }
      assert Occurs(needle, hay) ==> b by {
        if Occurs(needle, hay) {
          var i :| 0 <= i <= |hay| && needle <= hay[i..];
          assert i != 0;
          assert hay[1..][i - 1..] == hay[i..];
        }
      }
      b
  }

  /** `hay.toLowerCase().includes(needle.toLowerCase())`. */
  function IncludesIgnoringCase(hay: string, needle: string): (b: bool)
    ensures b <==> Occurs(Lower(needle), Lower(hay))
  {
    Includes(Lower(hay), Lower(needle))
  }

  /** The characters `String.prototype.trim` removes: white space and line terminators. */
  predicate IsWhite(c: char)
  {
    || c == '\t' || c == '\n' || c == '\U{000B}' || c == '\U{000C}' || c == '\r' || c == ' '
    || c == '\U{00A0}' || c == '\U{1680}' || ('\U{2000}' <= c <= '\U{200A}')
    || c == '\U{2028}' || c == '\U{2029}' || c == '\U{202F}' || c == '\U{205F}'
    || c == '\U{3000}' || c == '\U{FEFF}'
  }

  /** Neither end of `s` is a white-space character. */
  predicate IsTrimmed(s: string)
  {
    s == [] || (!IsWhite(s[0]) && !IsWhite(s[|s| - 1]))
  }

  function TrimStart(s: string): (r: string)
    ensures |r| <= |s| && r == s[|s| - |r|..]
    ensures forall i | 0 <= i < |s| - |r| :: IsWhite(s[i])
    ensures r == [] || !IsWhite(r[0])
  {
    if s != [] && IsWhite(s[0]) then TrimStart(s[1..]) else s
  }

  function TrimEnd(s: string): (r: string)
    ensures |r| <= |s| && r == s[..|r|]
    ensures forall i | |r| <= i < |s| :: IsWhite(s[i])
    ensures r == [] || !IsWhite(r[|r| - 1])
  {
    if s != [] && IsWhite(s[|s| - 1]) then TrimEnd(s[..|s| - 1]) else s
  }

  /**
    `r` is the stretch of `s` that starts after its first `k` characters, and
    everything of `s` outside that stretch is white space.
  */
  ghost predicate InnerPart(s: string, r: string, k: int)
  {
    && 0 <= k <= |s| - |r|
    && r == s[k..k + |r|]
    && (forall i | 0 <= i < k :: IsWhite(s[i]))
    && (forall i | k + |r| <= i < |s| :: IsWhite(s[i]))
  }

  /** A prefix of the suffix of `s` from `k` is the stretch of `s` from `k`. */
  lemma SuffixPrefix(s: string, t: string, r: string, k: int)
    requires 0 <= k <= |s| && t == s[k..]
    requires |r| <= |t| && r == t[..|r|]
    ensures k + |r| <= |s| && r == s[k..k + |r|]
  {
  }

  /** White space after the prefix of the suffix from `k` is white space of `s`. */
  lemma SuffixTail(s: string, t: string, r: string, k: int)
    requires 0 <= k <= |s| && t == s[k..] && |r| <= |t|
    requires forall i | |r| <= i < |t| :: IsWhite(t[i])
    ensures forall i | k + |r| <= i < |s| :: IsWhite(s[i])
  {
    forall i | k + |r| <= i < |s| ensures IsWhite(s[i]) {
      assert t[i - k] == s[i];
    }
  }

  /** Cutting the white space from the start and then from the end leaves an inner stretch. */
  lemma TrimStartThenEnd(s: string)
    ensures InnerPart(s, TrimEnd(TrimStart(s)), |s| - |TrimStart(s)|)
  {
    var t := TrimStart(s);
    var r := TrimEnd(t);
    var k := |s| - |t|;
    SuffixPrefix(s, t, r, k);
    SuffixTail(s, t, r, k);
  }

  /**
    `s.trim()`: white space removed from both ends and nothing else, so the
    result is an inner stretch of `s` with only white space around it.
  */
  function Trim(s: string): (r: string)
    ensures IsTrimmed(r)
    ensures forall c | c in r :: c in s
    ensures exists k :: InnerPart(s, r, k)
  {
    var t := TrimStart(s);
    var r := TrimEnd(t);
    var k := |s| - |t|;
    TrimStartThenEnd(s);
    assert forall c | c in r :: c in s by {
      forall c | c in r ensures c in s {
        var j :| 0 <= j < |r| && r[j] == c;
        assert s[k + j] == c;
      }
    }
    assert r != [] ==> r[0] == t[0];
    r
  }

  /** Trimming a string that has no white space at its ends changes nothing. */
  lemma TrimOfTrimmed(s: string)
    requires IsTrimmed(s)
    ensures Trim(s) == s
  {
  }

  /** The space that `join(', ')` puts before an entry is removed again by trim. */
  lemma TrimAfterSpace(s: string)
    requires IsTrimmed(s)
    ensures Trim(" " + s) == s
  {
  }

  /** `parts.join(sep)`. */
  function Join(parts: seq<string>, sep: string): string
  {
    if |parts| == 0 then ""
    else if |parts| == 1 then parts[0]
    else parts[0] + sep + Join(parts[1..], sep)
  }

  /** `s.split(sep)` for a one-character separator; joining the pieces gives `s` back. */
  function Split(s: string, sep: char): (parts: seq<string>)
    ensures |parts| >= 1
    ensures forall p | p in parts :: sep !in p
    ensures Join(parts, [sep]) == s
  {
    if s == [] then [""]
    else
      var rest := Split(s[1..], sep);
      if s[0] == sep then
        assert ([""] + rest)[1..] == rest;
        [""] + rest
      else
        var parts := [[s[0]] + rest[0]] + rest[1..];
        assert parts[1..] == rest[1..];
        assert forall p | p in parts :: sep !in p by {
          forall p | p in parts ensures sep !in p {
            if p != parts[0] {
              assert p in rest[1..];
            }
          }
        }
        assert Join(parts, [sep]) == [s[0]] + Join(rest, [sep]) by {
          if |rest| > 1 {
            assert Join(rest, [sep]) == rest[0] + [sep] + Join(rest[1..], [sep]);
          }
        }
        assert s == [s[0]] + s[1..];
        parts
  }

  /** Splitting `w + t`, where `w` holds no separator, extends the first piece of `t`. */
  lemma {:induction false} SplitPrefix(w: string, t: string, sep: char)
    requires sep !in w
    ensures Split(w + t, sep) == [w + Split(t, sep)[0]] + Split(t, sep)[1..]
  {
    if w == [] {
      assert w + t == t;
      assert w + Split(t, sep)[0] == Split(t, sep)[0];
      assert Split(t, sep) == [Split(t, sep)[0]] + Split(t, sep)[1..];
    } else {
      assert (w + t)[0] == w[0];
      assert (w + t)[1..] == w[1..] + t;
      assert w[0] in w;
      SplitPrefix(w[1..], t, sep);
      var rest := Split(w[1..] + t, sep);
      assert rest[0] == w[1..] + Split(t, sep)[0];
      assert rest[1..] == Split(t, sep)[1..];
      assert Split(w + t, sep) == [[w[0]] + rest[0]] + rest[1..];
      assert [w[0]] + (w[1..] + Split(t, sep)[0]) == w + Split(t, sep)[0] by {
        assert w == [w[0]] + w[1..];
      }
    }
  }

  /** Splitting a join of separator-free pieces on the same separator gives the pieces back. */
  lemma {:induction false} SplitJoin(parts: seq<string>, sep: char)
    requires |parts| >= 1
    requires forall p | p in parts :: sep !in p
    ensures Split(Join(parts, [sep]), sep) == parts
  {
    assert parts[0] in parts;
    if |parts| == 1 {
      SplitPrefix(parts[0], "", sep);
      assert parts[0] + "" == parts[0];
    } else {
      var rest := parts[1..];
      forall p | p in rest ensures sep !in p {
        assert p in parts;
      }
      SplitJoin(rest, sep);
      var t := [sep] + Join(rest, [sep]);
      assert Join(parts, [sep]) == parts[0] + t;
      SplitPrefix(parts[0], t, sep);
      assert t[0] == sep && t[1..] == Join(rest, [sep]);
      assert Split(t, sep) == [""] + rest;
      assert parts[0] + "" == parts[0];
      assert parts == [parts[0]] + rest;
    }
  }
}
