/**
 * `Array.prototype.join` with a newline separator, which the prompt composer
 * uses, and two reference definitions the composer's properties are stated
 * against: splitting a text at its newlines, and substring containment.
 * Neither of the two is called by the modelled code.
 */
module Text {
  /** `parts.join('\n')`: the empty list joins to the empty string. */
  function JoinLines(parts: seq<string>): string
  {
    if |parts| == 0 then ""
    else if |parts| == 1 then parts[0]
    else parts[0] + "\n" + JoinLines(parts[1..])
  }

  /** The pieces of a text between its newlines, always at least one (a reference definition). */
  function SplitLines(s: string): (r: seq<string>)
    ensures |r| >= 1
  {
    if s == [] then [""]
    else
      var rest := SplitLines(s[1..]);
      if s[0] == '\n' then [""] + rest
      else [[s[0]] + rest[0]] + rest[1..]
  }

  /** `t` occurs somewhere inside `s` (a reference definition). */
  ghost predicate Contains(s: string, t: string) {
    exists a, b :: s == a + t + b
  }

  /** A line with no newline in it splits to itself. */
  lemma {:induction false} SplitSingle(p: string)
    requires '\n' !in p
    ensures SplitLines(p) == [p]
  {
    if p != [] {
      SplitSingle(p[1..]);
      assert [p[0]] + p[1..] == p;
    }
  }

  /** Splitting stops at the first newline and carries on with the rest. */
  lemma {:induction false} SplitAtFirstNewline(p: string, rest: string)
    requires '\n' !in p
    ensures SplitLines(p + "\n" + rest) == [p] + SplitLines(rest)
  {
    if p == [] {
      assert p + "\n" + rest == "\n" + rest;
      assert ("\n" + rest)[1..] == rest;
    } else {
      var s := p + "\n" + rest;
      assert s[0] == p[0];
      assert s[1..] == p[1..] + "\n" + rest;
      SplitAtFirstNewline(p[1..], rest);
      assert [p[0]] + p[1..] == p;
    }
  }

  /** Joining newline-free lines and splitting the result gives the lines back. */
  lemma {:induction false} SplitJoin(parts: seq<string>)
    requires |parts| >= 1
    requires forall i :: 0 <= i < |parts| ==> '\n' !in parts[i]
    ensures SplitLines(JoinLines(parts)) == parts
  {
    if |parts| == 1 {
      SplitSingle(parts[0]);
    } else {
      SplitJoin(parts[1..]);
      SplitAtFirstNewline(parts[0], JoinLines(parts[1..]));
      assert [parts[0]] + parts[1..] == parts;
    }
  }

  /** A piece placed between two others is contained in the whole. */
  lemma ContainsMiddle(a: string, t: string, b: string)
    ensures Contains(a + t + b, t)
  {
  }

  /** Containment is transitive. */
  lemma ContainsTransitive(s: string, t: string, u: string)
    requires Contains(s, t) && Contains(t, u)
    ensures Contains(s, u)
  {
    var a, b :| s == a + t + b;
    var c, d :| t == c + u + d;
    assert s == (a + c) + u + (d + b);
  }

  /** Every joined line is contained in the joined text. */
  lemma {:induction false} JoinLinesContainsEach(parts: seq<string>, i: nat)
    requires i < |parts|
    ensures Contains(JoinLines(parts), parts[i])
  {
    if |parts| == 1 {
      ContainsMiddle([], parts[0], []);
      assert [] + parts[0] + [] == parts[0];
    } else if i == 0 {
      ContainsMiddle([], parts[0], "\n" + JoinLines(parts[1..]));
      assert JoinLines(parts) == [] + parts[0] + ("\n" + JoinLines(parts[1..]));
    } else {
      JoinLinesContainsEach(parts[1..], i - 1);
      ContainsMiddle(parts[0] + "\n", JoinLines(parts[1..]), []);
      assert JoinLines(parts) == (parts[0] + "\n") + JoinLines(parts[1..]) + [];
      ContainsTransitive(JoinLines(parts), JoinLines(parts[1..]), parts[i]);
    }
  }
}
