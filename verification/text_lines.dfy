/**
 * Multi-line text assembled line by line, as the application's template
 * literals are, and what can be said about where each line ends up.
 */
module TextLines {

  /** `sub` occurs in `s` starting at index `k`. */
  predicate OccursAt(s: string, k: int, sub: string) {
    0 <= k && k + |sub| <= |s| && s[k..k + |sub|] == sub
  }

  /** `line` sits in `s` at `k` between two newlines: it is a whole line, or several. */
  predicate LineAt(s: string, k: int, line: string) {
    1 <= k && OccursAt(s, k, line) && k + |line| < |s| && s[k - 1] == '\n' && s[k + |line|] == '\n'
  }

  /** The lines, each followed by a newline. */
  function Unlines(lines: seq<string>): (s: string)
    ensures lines != [] ==> |s| >= 1 && s[|s| - 1] == '\n'
  {
    if lines == [] then "" else Unlines(lines[..|lines| - 1]) + lines[|lines| - 1] + "\n"
  }

  /** Where line `i` starts in `Unlines(lines)`. */
  function LineStart(lines: seq<string>, i: nat): nat
    requires i <= |lines|
  {
    |Unlines(lines[..i])|
  }

  lemma {:induction false} UnlinesAppend(a: seq<string>, b: seq<string>)
    ensures Unlines(a + b) == Unlines(a) + Unlines(b)
  {
    if b != [] {
      var c := a + b;
      assert c[..|c| - 1] == a + b[..|b| - 1];
      UnlinesAppend(a, b[..|b| - 1]);
    } else {
      assert a + b == a;
    }
  }

  /** Line `i` is preceded by the earlier lines and followed by a newline and the later ones. */
  lemma {:induction false} UnlinesSplit(lines: seq<string>, i: nat)
    requires i < |lines|
    ensures Unlines(lines) == Unlines(lines[..i]) + lines[i] + "\n" + Unlines(lines[i + 1..])
  {
    var a, b := lines[..i + 1], lines[i + 1..];
    assert lines == a + b;
    UnlinesAppend(a, b);
    assert a[..i] == lines[..i];
  }

  /** Every line but the first is a whole line of the text, whatever follows it. */
  lemma {:induction false} UnlinesLineAt(lines: seq<string>, i: nat, tail: string)
    requires 1 <= i < |lines|
    ensures LineAt(Unlines(lines) + tail, LineStart(lines, i), lines[i])
  {
    UnlinesSplit(lines, i);
    var pre := Unlines(lines[..i]);
    var s := Unlines(lines) + tail;
    assert s == pre + lines[i] + ("\n" + Unlines(lines[i + 1..]) + tail);
  }

  /** Lines come in order: line `i` ends before line `j` starts. */
  lemma {:induction false} LineStartOrdered(lines: seq<string>, i: nat, j: nat)
    requires i < j <= |lines|
    ensures LineStart(lines, i) + |lines[i]| < LineStart(lines, j)
  {
    UnlinesAppend(lines[..i + 1], lines[i + 1..j]);
    assert lines[..j] == lines[..i + 1] + lines[i + 1..j];
    assert lines[..i + 1][..i] == lines[..i];
  }

  /** The last line ends with the text's final newline. */
  lemma LastLineStart(lines: seq<string>)
    requires lines != []
    ensures LineStart(lines, |lines| - 1) + |lines[|lines| - 1]| + 1 == |Unlines(lines)|
  {
    assert lines[..|lines| - 1] == lines[..|lines| - 1];
  }

  /** The earlier lines start at the same place whatever lines are appended. */
  lemma {:induction false} LineStartPrefix(lines: seq<string>, more: seq<string>, i: nat)
    requires i <= |lines|
    ensures LineStart(lines + more, i) == LineStart(lines, i)
  {
    assert (lines + more)[..i] == lines[..i];
  }

  /**
   * In a text whose first lines are `head`, each of them but the first is a
   * whole line at a place that depends on `head` alone.
   */
  lemma {:induction false} HeadLineAt(head: seq<string>, rest: seq<string>, tail: string, i: nat)
    requires 1 <= i < |head|
    ensures LineAt(Unlines(head + rest) + tail, LineStart(head, i), head[i])
  {
    UnlinesLineAt(head + rest, i, tail);
    LineStartPrefix(head, rest, i);
  }

  /** The line after a non-empty `head` is a whole line, starting right after `head`. */
  lemma {:induction false} LineAfterHead(head: seq<string>, line: string, rest: seq<string>, tail: string)
    requires head != []
    ensures LineAt(Unlines(head + ([line] + rest)) + tail, |Unlines(head)|, line)
  {
    var lines := head + ([line] + rest);
    assert lines[..|head|] == head;
    assert lines[|head|] == line;
    UnlinesLineAt(lines, |head|, tail);
  }

  /** What occurs inside one of the `head` lines occurs in the text, at a place that depends on `head` alone. */
  lemma {:induction false} HeadLineOccurs(head: seq<string>, rest: seq<string>, tail: string, i: nat, a: string, sub: string, b: string)
    requires 1 <= i < |head| && head[i] == a + sub + b
    ensures OccursAt(Unlines(head + rest) + tail, LineStart(head, i) + |a|, sub)
  {
    HeadLineAt(head, rest, tail, i);
    OccursInLine(Unlines(head + rest) + tail, LineStart(head, i), a, sub, b);
  }

  /** A text that opens with an empty line has its second line at index 1. */
  lemma {:induction false} SecondLineAt(lines: seq<string>, tail: string)
    requires 2 <= |lines| && lines[0] == ""
    ensures LineAt(Unlines(lines) + tail, 1, lines[1])
  {
    UnlinesLineAt(lines, 1, tail);
    assert lines[..1] == [""] && [""][..0] == [];
    assert Unlines(lines[..1]) == Unlines([]) + "" + "\n";
  }

  /**
   * The last line, `indent + text`, of a text followed by `tail`: the text
   * sits right after `head` and the indentation, and only a newline and
   * `tail` follow it.
   */
  lemma {:induction false} LastLine(head: seq<string>, indent: string, text: string, tail: string)
    ensures var s, k := Unlines(head + [indent + text]) + tail, |Unlines(head)| + |indent|;
      && k + |text| + 1 + |tail| == |s|
      && s[k - |indent|..k] == indent
      && s[k..k + |text|] == text
      && s[k + |text|..] == "\n" + tail
  {
    var u, line := Unlines(head), indent + text;
    assert (head + [line])[..|head|] == head;
    var s := u + line + "\n" + tail;
    assert Unlines(head + [line]) + tail == s;
    var k := |u| + |indent|;
    assert s == (u + indent) + (text + ("\n" + tail));
    assert s[k - |indent|..k] == (u + indent)[|u|..];
  }

  /** Texts that differ only in their last line's text are equal only when those texts are. */
  lemma {:induction false} LastLineInjective(head: seq<string>, indent: string, text1: string, text2: string, tail: string)
    requires Unlines(head + [indent + text1]) + tail == Unlines(head + [indent + text2]) + tail
    ensures text1 == text2
  {
    LastLine(head, indent, text1, tail);
    LastLine(head, indent, text2, tail);
  }

  /** `sub` occurs in `a + sub + b` right after `a`. */
  lemma OccursInConcat(a: string, sub: string, b: string)
    ensures OccursAt(a + sub + b, |a|, sub)
  {
    assert (a + sub + b)[|a|..|a| + |sub|] == sub;
  }

  /** `b` occurs in `a + b` right after `a`. */
  lemma OccursAtEnd(a: string, b: string)
    ensures OccursAt(a + b, |a|, b)
  {
    assert (a + b)[|a|..|a| + |b|] == b;
  }

  /** `sub` occurs inside the whole line `a + sub + b`, right after `a`. */
  lemma {:induction false} OccursInLine(s: string, k: int, a: string, sub: string, b: string)
    requires LineAt(s, k, a + sub + b)
    ensures OccursAt(s, k + |a|, sub)
  {
    var line := a + sub + b;
    assert line[|a|..|a| + |sub|] == sub;
    OccursWithin(s, k, line, |a|, sub);
  }

  /**
   * Two whole lines found at the same place agree: the shorter is a prefix of
   * the longer and the longer has a newline where the shorter ends.
   */
  lemma {:induction false} LineAtAgree(s: string, k: int, a: string, b: string)
    requires LineAt(s, k, a) && LineAt(s, k, b) && |a| < |b|
    ensures b[..|a|] == a && b[|a|] == '\n'
  {
    assert s[k..k + |b|][..|a|] == s[k..k + |a|];
    assert b[|a|] == s[k..k + |b|][|a|];
  }

  /**
   * A whole line that is `head` followed by one of two values, the longer
   * of which does not extend the shorter by a newline, shows which value it
   * holds: it reads `head + yes` exactly when `b` holds.
   */
  lemma {:induction false} ChoiceLineAt(s: string, k: int, head: string, yes: string, no: string, b: bool)
    requires LineAt(s, k, head + (if b then yes else no))
    requires |no| < |yes| && yes[|no|] != '\n'
    ensures LineAt(s, k, head + yes) <==> b
    ensures LineAt(s, k, head + no) <==> !b
  {
    var y, n := head + yes, head + no;
    assert y[|n|] == yes[|no|];
    if LineAt(s, k, y) && LineAt(s, k, n) {
      LineAtAgree(s, k, n, y);
    }
  }

  /** What occurs inside an occurrence occurs in the whole. */
  lemma {:induction false} OccursWithin(s: string, k: int, part: string, j: int, sub: string)
    requires OccursAt(s, k, part) && OccursAt(part, j, sub)
    ensures OccursAt(s, k + j, sub)
  {
    forall i | 0 <= i < |sub| ensures s[k + j + i] == sub[i] {
      assert sub[i] == part[j + i] == s[k..k + |part|][j + i];
    }
    assert s[k + j..k + j + |sub|] == sub;
  }
}
