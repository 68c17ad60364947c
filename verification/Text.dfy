/** String operations shared by the models: substring search, ASCII lower-casing,
    splitting, joining and non-overlapping replacement. */
module Text {

  predicate OccursAt(s: string, p: string, i: int) {
    0 <= i <= |s| - |p| && s[i..i + |p|] == p
  }

  predicate Contains(s: string, p: string) {
    exists i | 0 <= i <= |s| :: OccursAt(s, p, i)
  }

  /** A text that occurs in a message still occurs when the message is surrounded by more text. */
  lemma ContainsSurrounded(pre: string, s: string, post: string, p: string)
    requires Contains(s, p)
    ensures Contains(pre + s + post, p)
  {
    var i :| 0 <= i <= |s| && OccursAt(s, p, i);
    var t := pre + s + post;
    assert t[|pre| + i..|pre| + i + |p|] == s[i..i + |p|];
    assert OccursAt(t, p, |pre| + i);
  }

  function LowerChar(c: char): char {
    if 'A' <= c <= 'Z' then ((c as int) + 32) as char else c
  }

  function Lower(s: string): (r: string)
    ensures |r| == |s|
    ensures forall i :: 0 <= i < |s| ==> r[i] == LowerChar(s[i])
  {
    seq(|s|, i requires 0 <= i < |s| => LowerChar(s[i]))
  }

  lemma LowerAppend(s: string, t: string)
    ensures Lower(s + t) == Lower(s) + Lower(t)
  {
    forall i | 0 <= i < |s + t| ensures Lower(s + t)[i] == (Lower(s) + Lower(t))[i] {}
  }

  /** Go's strings.Split: the fields between the separators, one more than there are separators. */
  function Split(s: string, sep: char): (fields: seq<string>)
    ensures |fields| >= 1
  {
    if s == "" then [""]
    else
      var rest := Split(s[1..], sep);
      if s[0] == sep then [""] + rest else [[s[0]] + rest[0]] + rest[1..]
  }

  /** Go's strings.SplitN: at most n fields, the last one keeping the unsplit remainder. */
  function SplitN(s: string, sep: char, n: nat): (fields: seq<string>)
    requires n >= 1
    ensures 1 <= |fields| <= n
  {
    if n == 1 || s == "" then [s]
    else if s[0] == sep then [""] + SplitN(s[1..], sep, n - 1)
    else
      var rest := SplitN(s[1..], sep, n);
      [[s[0]] + rest[0]] + rest[1..]
  }

  /** Go's strings.Join with a one-character separator. */
  function Join(fields: seq<string>, sep: char): string {
    if fields == [] then ""
    else if |fields| == 1 then fields[0]
    else fields[0] + [sep] + Join(fields[1..], sep)
  }

  lemma {:induction false} JoinSplit(s: string, sep: char)
    ensures Join(Split(s, sep), sep) == s
  {
    if s != "" {
      var rest := Split(s[1..], sep);
      JoinSplit(s[1..], sep);
      if s[0] == sep {
        assert ([""] + rest)[1..] == rest;
        assert [sep] + s[1..] == s;
      } else {
        var fields := [[s[0]] + rest[0]] + rest[1..];
        assert fields[1..] == rest[1..];
        assert [s[0]] + s[1..] == s;
        if |rest| > 1 {
          assert Join(fields, sep) == [s[0]] + (rest[0] + [sep] + Join(rest[1..], sep));
        }
      }
    }
  }

  /** Splitting at a word boundary: a separator-free first field is cut off whole. */
  lemma {:induction false} SplitFirst(w: string, s: string, sep: char)
    requires sep !in w
    ensures Split(w + [sep] + s, sep) == [w] + Split(s, sep)
  {
    var t := w + [sep] + s;
    if w == "" {
      assert t[1..] == s;
    } else {
      SplitFirst(w[1..], s, sep);
      assert t[1..] == w[1..] + [sep] + s;
      assert [w[0]] + w[1..] == w;
    }
  }

  lemma {:induction false} SplitSingle(w: string, sep: char)
    requires sep !in w
    ensures Split(w, sep) == [w]
  {
    if w != "" {
      SplitSingle(w[1..], sep);
      assert [w[0]] + w[1..] == w;
    }
  }

  lemma {:induction false} SplitNFirst(w: string, s: string, sep: char, n: nat)
    requires sep !in w && n >= 2
    ensures SplitN(w + [sep] + s, sep, n) == [w] + SplitN(s, sep, n - 1)
  {
    var t := w + [sep] + s;
    if w == "" {
      assert t[1..] == s;
    } else {
      SplitNFirst(w[1..], s, sep, n);
      assert t[1..] == w[1..] + [sep] + s;
      assert [w[0]] + w[1..] == w;
    }
  }

  /** Go's strings.ReplaceAll for a non-empty pattern: leftmost, non-overlapping. */
  function ReplaceAll(s: string, p: string, sub: string): string
    requires p != ""
  {
    if |s| < |p| then s
    else if s[..|p|] == p then sub + ReplaceAll(s[|p|..], p, sub)
    else [s[0]] + ReplaceAll(s[1..], p, sub)
  }

  lemma ContainsTail(s: string, p: string)
    requires p != "" && |s| >= |p| && s[..|p|] != p
    ensures Contains(s, p) <==> Contains(s[1..], p)
  {
    if Contains(s, p) {
      var i :| 0 <= i <= |s| && OccursAt(s, p, i);
      assert OccursAt(s[1..], p, i - 1);
    }
    if Contains(s[1..], p) {
      var i :| 0 <= i <= |s[1..]| && OccursAt(s[1..], p, i);
      assert OccursAt(s, p, i + 1);
    }
  }

  lemma {:induction false} ReplaceAllNeverLonger(s: string, p: string, sub: string)
    requires |sub| < |p|
    ensures |ReplaceAll(s, p, sub)| <= |s|
    ensures Contains(s, p) ==> |ReplaceAll(s, p, sub)| < |s|
  {
    if |s| >= |p| {
      if s[..|p|] == p {
        ReplaceAllNeverLonger(s[|p|..], p, sub);
      } else {
        ReplaceAllNeverLonger(s[1..], p, sub);
        ContainsTail(s, p);
      }
    }
  }

  /** Replacing by a shorter text is the identity exactly on the strings without the pattern. */
  lemma {:induction false} ReplaceAllIdentity(s: string, p: string, sub: string)
    requires |sub| < |p|
    ensures ReplaceAll(s, p, sub) == s <==> !Contains(s, p)
  {
    ReplaceAllNeverLonger(s, p, sub);
    if !Contains(s, p) && |s| >= |p| {
      assert !OccursAt(s, p, 0);
      ContainsTail(s, p);
      ReplaceAllIdentity(s[1..], p, sub);
      assert [s[0]] + s[1..] == s;
    }
  }
}
