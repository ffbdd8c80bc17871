/**
 * Kotlin's `lines()`, `joinToString("\n")` and `trimIndent()`, for text
 * whose only line break is '\n'.
 */
module Indent {
  import opened Wrappers
  import opened Text
  import opened Seqs

  /** `joinToString("\n")`. */
  function Join(ls: seq<string>): (s: string)
    ensures |ls| == 1 ==> s == ls[0]
  {
    if ls == [] then "" else if |ls| == 1 then ls[0] else ls[0] + "\n" + Join(ls[1..])
  }

  /** `lines()`: the pieces between line breaks; a text without a break is
      one line. */
  function Lines(s: string): (ls: seq<string>)
    ensures ls != []
    decreases |s|
  {
    if '\n' !in s then [s]
    else
      var k := FirstIndex(s, '\n');
      [s[..k]] + Lines(s[k + 1..])
  }

  predicate NoBreak(s: string) {
    '\n' !in s
  }

  /** A line without a break, a break and the rest split into that line
      and the rest's lines. */
  lemma LinesCons(a: string, b: string)
    requires NoBreak(a)
    ensures Lines(a + "\n" + b) == [a] + Lines(b)
  {
    var s := a + "\n" + b;
    assert s[|a|] == '\n';
    var k := FirstIndex(s, '\n');
    assert k == |a|;
    assert s[..k] == a;
    assert s[k + 1..] == b;
  }

  /** Splitting undoes joining, as long as no line holds a break. */
  lemma {:induction false} LinesOfJoin(ls: seq<string>)
    requires ls != []
    requires forall i :: 0 <= i < |ls| ==> NoBreak(ls[i])
    ensures Lines(Join(ls)) == ls
  {
    if |ls| > 1 {
      LinesOfJoin(ls[1..]);
      LinesCons(ls[0], Join(ls[1..]));
    }
  }

  /** A joined text starts with its first line. */
  lemma JoinHead(ls: seq<string>)
    requires ls != []
    ensures |Join(ls)| >= |ls[0]| && Join(ls)[..|ls[0]|] == ls[0]
  {
    if |ls| > 1 {
      assert Join(ls) == ls[0] + ("\n" + Join(ls[1..]));
    }
  }

  /** Joining two non-empty lists puts one break between their texts. */
  lemma {:induction false} JoinAppend(xs: seq<string>, ys: seq<string>)
    requires xs != [] && ys != []
    ensures Join(xs + ys) == Join(xs) + "\n" + Join(ys)
  {
    if |xs| > 1 {
      assert (xs + ys)[1..] == xs[1..] + ys;
      JoinAppend(xs[1..], ys);
    } else {
      assert (xs + ys)[1..] == ys;
    }
  }

  /** `indentWidth`: how many white-space characters a line starts with. */
  function IndentWidth(line: string): (w: nat)
    ensures w <= |line|
  {
    |line| - |TrimStart(line)|
  }

  /** The smallest indentation among the lines that are not blank, if any
      line is not blank. */
  function MinIndent(ls: seq<string>): (r: Option<nat>)
    ensures r.None? <==> forall i :: 0 <= i < |ls| ==> IsBlank(ls[i])
    ensures r.Some? ==> forall i :: 0 <= i < |ls| && !IsBlank(ls[i]) ==> r.value <= IndentWidth(ls[i])
    ensures r.Some? ==> exists i :: 0 <= i < |ls| && !IsBlank(ls[i]) && r.value == IndentWidth(ls[i])
  {
    if ls == [] then None
    else
      var rest := MinIndent(ls[1..]);
      assert forall i :: 1 <= i < |ls| ==> ls[i] == ls[1..][i - 1];
      if IsBlank(ls[0]) then rest
      else if rest.Some? && rest.value < IndentWidth(ls[0]) then rest
      else Some(IndentWidth(ls[0]))
  }

  /** `drop(n)`: the line without its first `n` characters. */
  function Drop(line: string, n: nat): (r: string)
    ensures n <= |line| ==> r == line[n..]
    ensures n > |line| ==> r == ""
  {
    if n <= |line| then line[n..] else ""
  }

  /** `reindent`: every line loses `n` characters, and the first and the
      last line are dropped when they are blank. */
  function Reindent(ls: seq<string>, n: nat): (r: seq<string>)
    requires ls != []
  {
    var start := if IsBlank(ls[0]) then 1 else 0;
    var end := if |ls| > 1 && IsBlank(ls[|ls| - 1]) then |ls| - 1 else |ls|;
    seq(end - start, j requires 0 <= j < end - start => Drop(ls[start + j], n))
  }

  /** `trimIndent()`: the common indentation of the lines that are not
      blank is removed from every line, and a blank first or last line is
      removed. */
  function TrimIndent(s: string): string {
    var ls := Lines(s);
    Join(Reindent(ls, MinIndent(ls).GetOr(0)))
  }

  /** When the lines that are not blank all have the same indentation, that
      is the common indentation. */
  lemma UniformIndent(ls: seq<string>, w: nat, k: int)
    requires 0 <= k < |ls| && !IsBlank(ls[k])
    requires forall i :: 0 <= i < |ls| && !IsBlank(ls[i]) ==> IndentWidth(ls[i]) == w
    ensures MinIndent(ls) == Some(w)
  {
  }

  /** A text that starts with `k` white-space characters and then a
      character that is not white space is indented by exactly `k`. */
  lemma {:induction false} IndentOfPadded(pad: string, rest: string)
    requires IsBlank(pad)
    requires rest != [] && !IsWhitespace(rest[0])
    ensures IndentWidth(pad + rest) == |pad|
    ensures !IsBlank(pad + rest)
    decreases |pad|
  {
    var s := pad + rest;
    assert s[|pad|] == rest[0];
    if pad == [] {
      assert s == rest;
    } else {
      assert s[1..] == pad[1..] + rest;
      IndentOfPadded(pad[1..], rest);
    }
  }
}
