/**
 * The destination list of a StandardSlackService: the raw channel string
 * split on runs of `,`, `;` and space, with the semantics of Java's
 * `String.split(regex)` (limit 0).
 */
module ChannelList {

  /** The character class `[,; ]` of the split pattern (a literal space, not any white space). */
  predicate IsDelimiter(c: char) {
    c == ',' || c == ';' || c == ' '
  }

  predicate DelimiterFree(s: string) {
    forall k :: 0 <= k < |s| ==> !IsDelimiter(s[k])
  }

  predicate AllDelimiters(s: string) {
    forall k :: 0 <= k < |s| ==> IsDelimiter(s[k])
  }

  /** Length of the longest prefix of `s` without a delimiter. */
  function TokenLength(s: string): (n: nat)
    ensures n <= |s|
    ensures DelimiterFree(s[..n])
    ensures n < |s| ==> IsDelimiter(s[n])
  {
    if s == [] || IsDelimiter(s[0]) then 0
    else
      var m := TokenLength(s[1..]);
      assert s[..m + 1] == [s[0]] + s[1..][..m];
      m + 1
  }

  /** Length of the (maximal) delimiter run at the start of `s`: what one match of `[,; ]+` consumes. */
  function RunLength(s: string): (n: nat)
    ensures n <= |s|
    ensures AllDelimiters(s[..n])
    ensures n < |s| ==> !IsDelimiter(s[n])
  {
    if s == [] || !IsDelimiter(s[0]) then 0
    else
      var m := RunLength(s[1..]);
      assert s[..m + 1] == [s[0]] + s[1..][..m];
      m + 1
  }

  /**
   * The pieces of `s` between successive maximal delimiter runs, in order,
   * before trailing empty pieces are removed. A leading run gives a leading
   * empty piece, a trailing run a trailing one.
   */
  function Pieces(s: string): (r: seq<string>)
    ensures |r| >= 1
    ensures forall k :: 0 <= k < |r| ==> DelimiterFree(r[k])
    ensures forall k :: 0 < k < |r| - 1 ==> r[k] != ""
    ensures s != "" && !IsDelimiter(s[0]) ==> r[0] != ""
    decreases |s|
  {
    var t := TokenLength(s);
    if t == |s| then
      assert s[..t] == s;
      [s]
    else
      var rest := s[t..];
      var d := RunLength(rest);
      assert d >= 1;
      [s[..t]] + Pieces(rest[d..])
  }

  /** Removes the empty strings at the end of `xs`, as `split` does with limit 0. */
  function DropTrailingEmpty(xs: seq<string>): (r: seq<string>)
    ensures r <= xs
    ensures r == [] || r[|r| - 1] != ""
    ensures forall k :: |r| <= k < |xs| ==> xs[k] == ""
  {
    if xs != [] && xs[|xs| - 1] == "" then DropTrailingEmpty(xs[..|xs| - 1]) else xs
  }

  /**
   * `s.split("[,; ]+")`. When the pattern matches nowhere, Java returns the
   * input itself as the only element (so `""` gives `[""]`); otherwise the
   * pieces between matches, with trailing empty strings dropped.
   */
  function Split(s: string): (r: seq<string>)
    ensures forall k :: 0 <= k < |r| ==> DelimiterFree(r[k])
    ensures forall k :: 0 < k < |r| ==> r[k] != ""
    ensures r == [] <==> s != "" && AllDelimiters(s)
  {
    if TokenLength(s) == |s| then [s]
    else
      var ps := Pieces(s);
      var r := DropTrailingEmpty(ps);
      assert r == [] ==> s != "" && AllDelimiters(s) by {
        if r == [] {
          PiecesAllEmpty(s);
        }
      }
      assert s != "" && AllDelimiters(s) ==> ps == ["", ""] by {
        if s != "" && AllDelimiters(s) {
          assert RunLength(s[TokenLength(s)..]) == |s|;
        }
      }
      r
  }

  /** A channel list `split` can produce from a string that is not all delimiters. */
  predicate WellFormed(ts: seq<string>) {
    && |ts| >= 1
    && (forall k :: 0 <= k < |ts| ==> DelimiterFree(ts[k]))
    && (forall k :: 0 < k < |ts| ==> ts[k] != "")
  }

  /**
   * Lays out `ts` with `seps[k]` between `ts[k]` and `ts[k + 1]`; used with
   * exactly one separator per gap.
   */
  function Join(ts: seq<string>, seps: seq<string>): string
  {
    if ts == [] then ""
    else if |ts| == 1 || seps == [] then ts[0]
    else ts[0] + seps[0] + Join(ts[1..], seps[1..])
  }

  /** `seps` are the delimiter runs between the tokens of `ts`: one non-empty run per gap. */
  predicate Separators(ts: seq<string>, seps: seq<string>) {
    && |seps| + 1 == |ts|
    && (forall k :: 0 <= k < |seps| ==> seps[k] != "" && AllDelimiters(seps[k]))
  }

  /** Concatenation of all elements of `ts`. */
  function Concat(ts: seq<string>): string
  {
    if ts == [] then "" else ts[0] + Concat(ts[1..])
  }

  /** `s` with every delimiter character removed. */
  function RemoveDelimiters(s: string): string
  {
    if s == [] then ""
    else (if IsDelimiter(s[0]) then "" else [s[0]]) + RemoveDelimiters(s[1..])
  }

  /** When every piece of `s` is empty and `s` has a delimiter, `s` consists of delimiters only. */
  lemma PiecesAllEmpty(s: string)
    requires TokenLength(s) < |s|
    requires forall k :: 0 <= k < |Pieces(s)| ==> Pieces(s)[k] == ""
    ensures AllDelimiters(s)
  {
    var t := TokenLength(s);
    var rest := s[t..];
    var d := RunLength(rest);
    assert Pieces(s) == [s[..t]] + Pieces(rest[d..]);
    assert t == 0;
    var tail := rest[d..];
    assert Pieces(s)[1] == Pieces(tail)[0] == "";
    assert tail == "";
    assert s == rest[..d];
  }

  lemma {:induction false} ConcatAppend(xs: seq<string>, ys: seq<string>)
    ensures Concat(xs + ys) == Concat(xs) + Concat(ys)
  {
    if xs == [] {
      assert xs + ys == ys;
    } else {
      assert (xs + ys)[1..] == xs[1..] + ys;
      ConcatAppend(xs[1..], ys);
    }
  }

  lemma {:induction false} RemoveDelimitersAppend(a: string, b: string)
    ensures RemoveDelimiters(a + b) == RemoveDelimiters(a) + RemoveDelimiters(b)
  {
    if a == [] {
      assert a + b == b;
    } else {
      assert (a + b)[1..] == a[1..] + b;
      RemoveDelimitersAppend(a[1..], b);
    }
  }

  lemma {:induction false} RemoveDelimitersOfFree(s: string)
    requires DelimiterFree(s)
    ensures RemoveDelimiters(s) == s
  {
    if s != [] {
      RemoveDelimitersOfFree(s[1..]);
    }
  }

  lemma {:induction false} RemoveDelimitersOfRun(s: string)
    requires AllDelimiters(s)
    ensures RemoveDelimiters(s) == ""
  {
    if s != [] {
      RemoveDelimitersOfRun(s[1..]);
    }
  }

  lemma {:induction false} ConcatPieces(s: string)
    ensures Concat(Pieces(s)) == RemoveDelimiters(s)
    decreases |s|
  {
    var t := TokenLength(s);
    if t == |s| {
      assert s[..t] == s;
      RemoveDelimitersOfFree(s);
    } else {
      var rest := s[t..];
      var d := RunLength(rest);
      var tail := rest[d..];
      assert Pieces(s) == [s[..t]] + Pieces(tail);
      ConcatPieces(tail);
      assert Concat(Pieces(s)) == s[..t] + RemoveDelimiters(tail);
      assert s[t..t + d] == rest[..d] && s[t + d..] == tail;
      RemoveDelimitersSplit(s, t, d);
    }
  }

  lemma RemoveDelimitersSplit(s: string, t: nat, d: nat)
    requires t + d <= |s|
    requires DelimiterFree(s[..t]) && AllDelimiters(s[t..t + d])
    ensures RemoveDelimiters(s) == s[..t] + RemoveDelimiters(s[t + d..])
  {
    assert s == s[..t] + (s[t..t + d] + s[t + d..]);
    RemoveDelimitersAppend(s[..t], s[t..t + d] + s[t + d..]);
    RemoveDelimitersAppend(s[t..t + d], s[t + d..]);
    RemoveDelimitersOfFree(s[..t]);
    RemoveDelimitersOfRun(s[t..t + d]);
  }

  lemma {:induction false} ConcatDropTrailingEmpty(xs: seq<string>)
    ensures Concat(DropTrailingEmpty(xs)) == Concat(xs)
    decreases |xs|
  {
    if xs != [] && xs[|xs| - 1] == "" {
      var init := xs[..|xs| - 1];
      ConcatDropTrailingEmpty(init);
      assert xs == init + [""];
      ConcatAppend(init, [""]);
    }
  }

  /** Splitting loses no character but the delimiters and keeps the order of the rest. */
  lemma SplitKeepsContent(s: string)
    ensures Concat(Split(s)) == RemoveDelimiters(s)
  {
    if TokenLength(s) == |s| {
      assert s[..TokenLength(s)] == s;
      RemoveDelimitersOfFree(s);
    } else {
      ConcatDropTrailingEmpty(Pieces(s));
      ConcatPieces(s);
    }
  }

  /** A token followed by a delimiter run (possibly none) is one piece, plus an empty one after the run. */
  lemma PiecesOfLastToken(t: string, tail: string)
    requires DelimiterFree(t) && AllDelimiters(tail)
    ensures Pieces(t + tail) == [t] + (if tail == "" then [] else [""])
  {
    var s := t + tail;
    TokenLengthOfFree(t, tail);
    if tail == "" {
      assert s == t;
    } else {
      assert s[|t|..] == tail + "";
      RunLengthOfRun(tail, "");
      assert s[..|t|] == t;
      assert Pieces(s) == [t] + Pieces("");
    }
  }

  /** A token, then a delimiter run, then a non-delimiter: the token is the first piece. */
  lemma PiecesOfToken(t: string, sep: string, rest: string)
    requires DelimiterFree(t) && sep != "" && AllDelimiters(sep)
    requires rest != "" && !IsDelimiter(rest[0])
    ensures Pieces(t + (sep + rest)) == [t] + Pieces(rest)
  {
    var s := t + (sep + rest);
    TokenLengthOfFree(t, sep + rest);
    assert s[..|t|] == t;
    assert s[|t|..] == sep + rest;
    RunLengthOfRun(sep, rest);
    assert (sep + rest)[|sep|..] == rest;
  }

  lemma {:induction false} PiecesOfJoin(ts: seq<string>, seps: seq<string>, tail: string)
    requires WellFormed(ts) && Separators(ts, seps)
    requires AllDelimiters(tail)
    ensures Pieces(Join(ts, seps) + tail) == ts + (if tail == "" then [] else [""])
    decreases |ts|
  {
    if |ts| == 1 {
      PiecesOfLastToken(ts[0], tail);
    } else {
      var rest := Join(ts[1..], seps[1..]) + tail;
      assert Join(ts, seps) + tail == ts[0] + (seps[0] + rest);
      assert rest != "" && !IsDelimiter(rest[0]) by {
        JoinStart(ts[1..], seps[1..]);
        assert rest[0] == ts[1][0];
      }
      assert WellFormed(ts[1..]) && Separators(ts[1..], seps[1..]);
      var more: seq<string> := if tail == "" then [] else [""];
      calc {
        Pieces(Join(ts, seps) + tail);
        Pieces(ts[0] + (seps[0] + rest));
        { PiecesOfToken(ts[0], seps[0], rest); }
        [ts[0]] + Pieces(rest);
        { PiecesOfJoin(ts[1..], seps[1..], tail); }
        [ts[0]] + (ts[1..] + more);
        { assert ts == [ts[0]] + ts[1..]; }
        ts + more;
      }
    }
  }

  /** A delimiter-free prefix followed by a delimiter (or nothing) is exactly one token long. */
  lemma {:induction false} TokenLengthOfFree(a: string, b: string)
    requires DelimiterFree(a)
    requires b == "" || IsDelimiter(b[0])
    ensures TokenLength(a + b) == |a|
  {
    if a == [] {
      assert a + b == b;
    } else {
      assert (a + b)[1..] == a[1..] + b;
      TokenLengthOfFree(a[1..], b);
    }
  }

  /** A delimiter run followed by a non-delimiter (or nothing) is consumed whole by one match. */
  lemma {:induction false} RunLengthOfRun(a: string, b: string)
    requires AllDelimiters(a)
    requires b == "" || !IsDelimiter(b[0])
    ensures RunLength(a + b) == |a|
  {
    if a == [] {
      assert a + b == b;
    } else {
      assert (a + b)[1..] == a[1..] + b;
      RunLengthOfRun(a[1..], b);
    }
  }

  /** A joined non-empty list starts with its first element. */
  lemma {:induction false} JoinStart(ts: seq<string>, seps: seq<string>)
    requires ts != []
    ensures |Join(ts, seps)| >= |ts[0]| && Join(ts, seps)[..|ts[0]|] == ts[0]
  {
  }

  /**
   * Splitting undoes joining: tokens laid out with any non-empty delimiter
   * runs between them, and possibly a delimiter run after the last
   * (non-empty) token, split back into exactly those tokens.
   */
  lemma SplitJoin(ts: seq<string>, seps: seq<string>, tail: string)
    requires WellFormed(ts) && Separators(ts, seps)
    requires AllDelimiters(tail)
    requires tail != "" ==> ts[|ts| - 1] != ""
    ensures Split(Join(ts, seps) + tail) == ts
  {
    var s := Join(ts, seps) + tail;
    if |ts| == 1 && tail == "" {
      assert s == ts[0] + "" == ts[0];
      TokenLengthOfFree(ts[0], "");
      assert TokenLength(s) == |s|;
      assert Split(s) == [ts[0]] == ts;
    } else {
      SplitOfJoinHasDelimiter(ts, seps, tail);
      PiecesOfJoin(ts, seps, tail);
      DropEmptyAfter(ts, tail);
    }
  }

  lemma SplitOfJoinHasDelimiter(ts: seq<string>, seps: seq<string>, tail: string)
    requires WellFormed(ts) && Separators(ts, seps)
    requires AllDelimiters(tail)
    requires |ts| > 1 || tail != ""
    ensures TokenLength(Join(ts, seps) + tail) < |Join(ts, seps) + tail|
  {
    if |ts| == 1 {
      assert Join(ts, seps) + tail == ts[0] + tail;
      TokenLengthOfFree(ts[0], tail);
    } else {
      var rest := Join(ts[1..], seps[1..]) + tail;
      assert Join(ts, seps) + tail == ts[0] + (seps[0] + rest);
      TokenLengthOfFree(ts[0], seps[0] + rest);
    }
  }

  lemma DropEmptyAfter(ts: seq<string>, tail: string)
    requires ts != [] && ts[|ts| - 1] != ""
    ensures DropTrailingEmpty(ts + (if tail == "" then [] else [""])) == ts
  {
  }

  /** "a,b; c" names the channels "a", "b" and "c". */
  lemma SplitMixedSeparators()
    ensures Split("a,b; c") == ["a", "b", "c"]
  {
    assert Join(["a", "b", "c"], [",", "; "]) + "" == "a,b; c";
    SplitJoin(["a", "b", "c"], [",", "; "], "");
  }

  /** A trailing delimiter adds no channel. */
  lemma SplitTrailingDelimiter()
    ensures Split("ops, dev;") == ["ops", "dev"]
  {
    assert Join(["ops", "dev"], [", "]) + ";" == "ops, dev;";
    SplitJoin(["ops", "dev"], [", "], ";");
  }

  /** A channel string with a leading delimiter keeps an empty first destination. */
  lemma SplitLeadingDelimiter()
    ensures Split(",general") == ["", "general"]
  {
    assert Join(["", "general"], [","]) + "" == ",general";
    SplitJoin(["", "general"], [","], "");
  }

  /** "build, releases" names the two channels "build" and "releases". */
  lemma SplitBuildReleases()
    ensures Split("build, releases") == ["build", "releases"]
  {
    assert Join(["build", "releases"], [", "]) + "" == "build, releases";
    SplitJoin(["build", "releases"], [", "], "");
  }
}
