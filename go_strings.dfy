/**
  The functions of Go's `strings` package that the handler uses, on strings as
  sequences of characters: TrimPrefix, Trim with a cutset (TrimLeft and
  TrimRight, in either order), and Split on a one-character separator, with Join as Split's
  inverse.
 */
module GoStrings {

  /** Every character of `s` occurs in `cutset`. */
  predicate AllIn(s: string, cutset: string) {
    forall k :: 0 <= k < |s| ==> s[k] in cutset
  }

  /** `s` ends with `suffix`. */
  predicate HasSuffix(s: string, suffix: string) {
    |suffix| <= |s| && s[|s| - |suffix|..] == suffix
  }

  /** strings.TrimPrefix: `s` without ONE leading occurrence of `prefix`, or `s` itself. */
  function TrimPrefix(s: string, prefix: string): (r: string)
    ensures prefix <= s ==> prefix + r == s
    ensures !(prefix <= s) ==> r == s
  {
    if prefix <= s then s[|prefix|..] else s
  }

  /** strings.TrimLeft: drops every leading character that occurs in `cutset`. */
  function TrimLeft(s: string, cutset: string): (r: string)
    ensures HasSuffix(s, r)
    ensures AllIn(s[..|s| - |r|], cutset)
    ensures r == [] || r[0] !in cutset
    decreases |s|
  {
    if s != [] && s[0] in cutset then
      var r := TrimLeft(s[1..], cutset);
      assert s[..|s| - |r|] == [s[0]] + s[1..][..|s| - 1 - |r|];
      r
    else
      s
  }

  /** strings.TrimRight: drops every trailing character that occurs in `cutset`. */
  function TrimRight(s: string, cutset: string): (r: string)
    ensures r <= s
    ensures AllIn(s[|r|..], cutset)
    ensures r == [] || r[|r| - 1] !in cutset
    decreases |s|
  {
    if s != [] && s[|s| - 1] in cutset then
      var r := TrimRight(s[..|s| - 1], cutset);
      assert s[|r|..] == s[..|s| - 1][|r|..] + [s[|s| - 1]];
      r
    else
      s
  }

  /**
    `s[i..j]` is what remains of `s` once its leading and trailing characters
    from `cutset` are gone: everything outside it is in `cutset`, and a
    non-empty remainder starts and ends outside `cutset`.
   */
  predicate Trimmed(s: string, cutset: string, i: int, j: int) {
    && 0 <= i <= j <= |s|
    && AllIn(s[..i], cutset)
    && AllIn(s[j..], cutset)
    && (i < j ==> s[i] !in cutset && s[j - 1] !in cutset)
  }

  /** strings.Trim: drops every leading and every trailing character that occurs in `cutset`. */
  function Trim(s: string, cutset: string): (r: string)
    ensures exists i, j :: Trimmed(s, cutset, i, j) && r == s[i..j]
  {
    TrimLeftThenRight(s, cutset);
    TrimRight(TrimLeft(s, cutset), cutset)
  }

  /** TrimLeft followed by TrimRight keeps the stretch `Trimmed` describes. */
  lemma TrimLeftThenRight(s: string, cutset: string)
    ensures exists i, j :: Trimmed(s, cutset, i, j) && TrimRight(TrimLeft(s, cutset), cutset) == s[i..j]
  {
    var left := TrimLeft(s, cutset);
    var r := TrimRight(left, cutset);
    TrimmedBetween(s, cutset, left, r);
    assert Trimmed(s, cutset, |s| - |left|, |s| - |left| + |r|);
  }

  /** A suffix of `s` with its cut prefix, then a prefix of that with its cut suffix, are `Trimmed`. */
  lemma TrimmedBetween(s: string, cutset: string, left: string, r: string)
    requires HasSuffix(s, left) && AllIn(s[..|s| - |left|], cutset) && (left == [] || left[0] !in cutset)
    requires r <= left && AllIn(left[|r|..], cutset) && (r == [] || r[|r| - 1] !in cutset)
    ensures Trimmed(s, cutset, |s| - |left|, |s| - |left| + |r|)
    ensures r == s[|s| - |left|..|s| - |left| + |r|]
  {
    var i := |s| - |left|;
    var j := i + |r|;
    assert left == s[i..];
    assert r == s[i..j];
    assert s[j..] == left[|r|..];
    assert i < j ==> s[i] == r[0] && s[j - 1] == r[|r| - 1];
  }

  /** TrimLeft stops exactly at the first character outside `cutset`. */
  lemma {:induction false} TrimLeftAt(s: string, cutset: string, i: int)
    requires 0 <= i <= |s| && AllIn(s[..i], cutset)
    requires i == |s| || s[i] !in cutset
    ensures TrimLeft(s, cutset) == s[i..]
    decreases |s|
  {
    if s != [] && s[0] in cutset && i > 0 {
      assert s[1..][..i - 1] == s[..i][1..];
      TrimLeftAt(s[1..], cutset, i - 1);
      assert s[1..][i - 1..] == s[i..];
    }
  }

  /** TrimRight stops exactly after the last character outside `cutset`. */
  lemma {:induction false} TrimRightAt(s: string, cutset: string, j: int)
    requires 0 <= j <= |s| && AllIn(s[j..], cutset)
    requires j == 0 || s[j - 1] !in cutset
    ensures TrimRight(s, cutset) == s[..j]
    decreases |s|
  {
    if s != [] && s[|s| - 1] in cutset && j < |s| {
      var t := s[..|s| - 1];
      assert t[j..] == s[j..][..|s| - 1 - j];
      TrimRightAt(t, cutset, j);
      assert t[..j] == s[..j];
    }
  }

  /** Trim's result is the ONLY remainder `Trimmed` allows: the two definitions agree. */
  lemma TrimUnique(s: string, cutset: string, i: int, j: int)
    requires Trimmed(s, cutset, i, j)
    ensures Trim(s, cutset) == s[i..j]
  {
    if i < j {
      TrimLeftAt(s, cutset, i);
      var left := s[i..];
      assert left[j - i..] == s[j..];
      TrimRightAt(left, cutset, j - i);
      assert left[..j - i] == s[i..j];
    } else {
      assert AllIn(s, cutset) by {
        forall k | 0 <= k < |s| ensures s[k] in cutset {
          if k < i { assert s[..i][k] == s[k]; } else { assert s[j..][k - j] == s[k]; }
        }
      }
      assert s[..|s|] == s;
      TrimLeftAt(s, cutset, |s|);
    }
  }

  /** Trimming cutset characters off both sides of a core that starts and ends outside the cutset. */
  lemma TrimAround(lead: string, core: string, trail: string, cutset: string)
    requires AllIn(lead, cutset) && AllIn(trail, cutset)
    requires core != [] && core[0] !in cutset && core[|core| - 1] !in cutset
    ensures Trim(lead + core + trail, cutset) == core
  {
    var s := lead + core + trail;
    var i, j := |lead|, |lead| + |core|;
    assert s[..i] == lead;
    assert s[j..] == trail;
    assert s[i] == core[0] && s[j - 1] == core[|core| - 1];
    TrimUnique(s, cutset, i, j);
    assert s[i..j] == core;
  }

  /** Stripping the right end first and the left end second gives the same result. */
  lemma TrimRightThenLeft(s: string, cutset: string)
    ensures TrimLeft(TrimRight(s, cutset), cutset) == Trim(s, cutset)
  {
    var r := Trim(s, cutset);
    var i, j :| Trimmed(s, cutset, i, j) && r == s[i..j];
    TrimRightThenLeftAt(s, cutset, i, j);
  }

  /** Right-then-left stripping keeps the stretch `Trimmed` describes. */
  lemma TrimRightThenLeftAt(s: string, cutset: string, i: int, j: int)
    requires Trimmed(s, cutset, i, j)
    ensures TrimLeft(TrimRight(s, cutset), cutset) == s[i..j]
  {
    if i < j {
      TrimRightAt(s, cutset, j);
      var right := s[..j];
      assert right[..i] == s[..i] && right[i] == s[i];
      TrimLeftAt(right, cutset, i);
      assert right[i..] == s[i..j];
    } else {
      assert AllIn(s[0..], cutset) by {
        forall k | 0 <= k < |s| ensures s[0..][k] in cutset {
          if k < i { assert s[..i][k] == s[k]; } else { assert s[j..][k - j] == s[k]; }
        }
      }
      TrimRightAt(s, cutset, 0);
    }
  }

  /** A trimmed string is its own trim. */
  lemma TrimIdempotent(s: string, cutset: string)
    ensures Trim(Trim(s, cutset), cutset) == Trim(s, cutset)
  {
    var r := Trim(s, cutset);
    var i, j :| Trimmed(s, cutset, i, j) && r == s[i..j];
    assert r[..0] == [] && r[|r|..] == [];
    assert Trimmed(r, cutset, 0, |r|);
    TrimUnique(r, cutset, 0, |r|);
  }

  /** Trim leaves nothing exactly when every character is in `cutset`. */
  lemma TrimEmptyIff(s: string, cutset: string)
    ensures Trim(s, cutset) == [] <==> AllIn(s, cutset)
  {
    var r := Trim(s, cutset);
    var i, j :| Trimmed(s, cutset, i, j) && Trim(s, cutset) == s[i..j];
    if AllIn(s, cutset) {
      assert s[..0] == [] && s[..|s|] == s && s[|s|..] == [];
      assert Trimmed(s, cutset, 0, 0);
      TrimUnique(s, cutset, 0, 0);
    } else {
      var k :| 0 <= k < |s| && s[k] !in cutset;
    }
  }

  /** TrimPrefix with a one-character prefix leaves nothing only for "" and that character. */
  lemma TrimPrefixEmptyIff(s: string, c: char)
    ensures TrimPrefix(s, [c]) == [] <==> s == [] || s == [c]
  {
    if |s| >= 2 {
      assert [c] <= s ==> |s[1..]| > 0;
    }
  }

  /** TrimPrefix removes one occurrence where Trim removes them all: "//" against "/". */
  lemma TrimPrefixRemovesOne()
    ensures TrimPrefix("//", "/") == "/"
    ensures Trim("//", "/") == ""
  {
    assert AllIn("//", "/");
    TrimEmptyIff("//", "/");
  }

  /** strings.Join with a one-character separator; the inverse of Split. */
  function Join(parts: seq<string>, sep: char): (s: string)
    decreases |parts|
  {
    if |parts| == 0 then []
    else if |parts| == 1 then parts[0]
    else parts[0] + [sep] + Join(parts[1..], sep)
  }

  /** None of `parts` contains `sep`. */
  predicate SepFree(parts: seq<string>, sep: char) {
    forall p :: p in parts ==> sep !in p
  }

  /**
    strings.Split with a one-character separator: the maximal pieces of `s`
    between separators, in order; "" splits into one empty piece.
   */
  function Split(s: string, sep: char): (parts: seq<string>)
    ensures |parts| >= 1
    ensures SepFree(parts, sep)
    ensures Join(parts, sep) == s
    decreases |s|
  {
    if s == [] then
      [[]]
    else
      var rest := Split(s[1..], sep);
      if s[0] == sep then
        assert ([[]] + rest)[1..] == rest;
        [[]] + rest
      else
        var parts := [[s[0]] + rest[0]] + rest[1..];
        assert parts[1..] == rest[1..];
        assert s == [s[0]] + s[1..];
        parts
  }

  /**
    The first piece of a split is the longest prefix of `s` without `sep`:
    any separator-free prefix that ends at a separator or at the end of `s` is it.
   */
  lemma FirstPiece(s: string, sep: char, p: string)
    requires p <= s && sep !in p
    requires |p| == |s| || s[|p|] == sep
    ensures Split(s, sep)[0] == p
  {
    var parts := Split(s, sep);
    var q := parts[0];
    assert q in parts;
    assert q <= s by {
      if |parts| > 1 {
        assert Join(parts, sep) == q + ([sep] + Join(parts[1..], sep));
      }
    }
    if |parts| > 1 {
      assert Join(parts, sep) == q + [sep] + Join(parts[1..], sep);
    }
    assert |q| < |s| ==> s[|q|] == sep;
  }

  /** Splitting a piece, a separator and a tail gives the piece, then the tail's pieces. */
  lemma {:induction false} SplitCons(p: string, sep: char, t: string)
    requires sep !in p
    ensures Split(p + [sep] + t, sep) == [p] + Split(t, sep)
    decreases |p|
  {
    var s := p + [sep] + t;
    if p == [] {
      assert s[1..] == t;
    } else {
      assert s[1..] == p[1..] + [sep] + t;
      SplitCons(p[1..], sep, t);
      assert [s[0]] + p[1..] == p;
    }
  }

  /** Split undoes Join on separator-free pieces: with Split's own contract, the two are inverses. */
  lemma {:induction false} SplitJoin(parts: seq<string>, sep: char)
    requires |parts| >= 1 && SepFree(parts, sep)
    ensures Split(Join(parts, sep), sep) == parts
    decreases |parts|
  {
    assert parts[0] in parts;
    if |parts| == 1 {
      var s := parts[0];
      FirstPiece(s, sep, s);
    } else {
      assert SepFree(parts[1..], sep) by {
        forall p | p in parts[1..] ensures sep !in p { assert p in parts; }
      }
      SplitJoin(parts[1..], sep);
      SplitCons(parts[0], sep, Join(parts[1..], sep));
    }
  }
}
