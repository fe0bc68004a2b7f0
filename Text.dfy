/**
 * Reading a plain-text mail body line by line.  `Split` is Python's
 * `s.split("\n")` and `Join` is `"\n".join(ls)`; they are the reference by
 * which the bodies composed in module Notify are shown to have the line
 * structure the source writes out.
 */
module Text {

  /** The pieces of `s` between newlines, in order; never empty, and a
      trailing newline gives a trailing empty piece, as in Python. */
  function Split(s: string): (r: seq<string>)
    ensures |r| >= 1
    ensures forall i :: 0 <= i < |r| ==> '\n' !in r[i]
  {
    if |s| == 0 then [""]
    else
      var rest := Split(s[1..]);
      if s[0] == '\n' then [""] + rest
      else [[s[0]] + rest[0]] + rest[1..]
  }

  /** The pieces of `ls` with one newline between neighbours. */
  function Join(ls: seq<string>): string
  {
    if |ls| == 0 then ""
    else if |ls| == 1 then ls[0]
    else ls[0] + "\n" + Join(ls[1..])
  }

  /** No piece of `ls` contains a newline. */
  predicate SingleLines(ls: seq<string>)
  {
    forall i :: 0 <= i < |ls| ==> '\n' !in ls[i]
  }

  /** A text without a newline is one line. */
  lemma {:induction false} SplitSingleLine(a: string)
    requires '\n' !in a
    ensures Split(a) == [a]
  {
    if |a| > 0 {
      assert '\n' !in a[1..] by {
        forall k | 0 <= k < |a[1..]| ensures a[1..][k] != '\n' {
          assert a[1..][k] == a[k + 1];
        }
      }
      SplitSingleLine(a[1..]);
      assert [a[0]] + a[1..] == a;
    }
  }

  /** A newline-free prefix followed by a newline is the first line. */
  lemma {:induction false} SplitLine(a: string, b: string)
    requires '\n' !in a
    ensures Split(a + "\n" + b) == [a] + Split(b)
  {
    var s := a + "\n" + b;
    if |a| == 0 {
      assert s[0] == '\n' && s[1..] == b;
    } else {
      assert '\n' !in a[1..] by {
        forall k | 0 <= k < |a[1..]| ensures a[1..][k] != '\n' {
          assert a[1..][k] == a[k + 1];
        }
      }
      SplitLine(a[1..], b);
      assert s[0] == a[0] && s[1..] == a[1..] + "\n" + b;
      assert [a[0]] + a[1..] == a;
    }
  }

  /** Splitting undoes joining newline-free pieces. */
  lemma {:induction false} SplitJoin(ls: seq<string>)
    requires |ls| >= 1 && SingleLines(ls)
    ensures Split(Join(ls)) == ls
  {
    if |ls| == 1 {
      SplitSingleLine(ls[0]);
    } else {
      SplitJoin(ls[1..]);
      SplitLine(ls[0], Join(ls[1..]));
      assert [ls[0]] + ls[1..] == ls;
    }
  }

  /** Joining undoes splitting: no character of the text is lost. */
  lemma {:induction false} JoinSplit(s: string)
    ensures Join(Split(s)) == s
  {
    if |s| > 0 {
      var rest := Split(s[1..]);
      JoinSplit(s[1..]);
      if s[0] == '\n' {
        assert Split(s) == [""] + rest;
        assert ([""] + rest)[1..] == rest;
        assert s == "" + "\n" + s[1..];
      } else {
        var r := Split(s);
        assert r == [[s[0]] + rest[0]] + rest[1..];
        assert r[1..] == rest[1..];
        if |rest| == 1 {
          assert s == [s[0]] + s[1..];
        } else {
          assert Join(rest) == rest[0] + "\n" + Join(rest[1..]);
          assert s == [s[0]] + s[1..];
        }
      }
    }
  }

  /** Appending a newline closes the last line and opens an empty one. */
  lemma {:induction false} SplitAppendNewline(x: string)
    ensures Split(x + "\n") == Split(x) + [""]
  {
    if |x| == 0 {
      assert x + "\n" == "\n";
      assert Split("\n") == [""] + Split("");
    } else {
      var s := x + "\n";
      assert s[0] == x[0] && s[1..] == x[1..] + "\n";
      SplitAppendNewline(x[1..]);
    }
  }

  /** Appending newline-free text extends the last line. */
  lemma {:induction false} SplitAppendText(x: string, y: string)
    requires '\n' !in y
    ensures var r := Split(x);
      Split(x + y) == r[..|r| - 1] + [r[|r| - 1] + y]
  {
    if |x| == 0 {
      assert x + y == y;
      SplitSingleLine(y);
    } else {
      var s := x + y;
      assert s[0] == x[0] && s[1..] == x[1..] + y;
      SplitAppendText(x[1..], y);
      var r' := Split(x[1..]);
      if x[0] != '\n' && |r'| == 1 {
        assert [x[0]] + (r'[0] + y) == ([x[0]] + r'[0]) + y;
      }
    }
  }

  /** Two texts without a newline make one without a newline. */
  lemma NoNewlineConcat(a: string, b: string)
    requires '\n' !in a && '\n' !in b
    ensures '\n' !in a + b
  {
    forall k | 0 <= k < |a + b| ensures (a + b)[k] != '\n' {
      if k >= |a| { assert (a + b)[k] == b[k - |a|]; }
    }
  }

  /** Text after a line break is the whole of the new last line. */
  lemma SplitAppendAfterBreak(x: string, done: seq<string>, y: string)
    requires Split(x) == done + [""]
    requires '\n' !in y
    ensures Split(x + y) == done + [y]
  {
    var r := done + [""];
    assert r[..|r| - 1] == done && r[|r| - 1] + y == y;
    SplitAppendText(x, y);
  }

  /** A line break followed by a newline-free line adds that line. */
  lemma SplitAppendBreakLine(x: string, done: seq<string>, y: string)
    requires Split(x) == done
    requires '\n' !in y
    ensures Split(x + "\n" + y) == done + [y]
  {
    SplitAppendNewline(x);
    SplitAppendAfterBreak(x + "\n", done, y);
  }

  /** A blank line followed by a newline-free line adds both. */
  lemma SplitAppendBlankLine(x: string, done: seq<string>, y: string)
    requires Split(x) == done
    requires '\n' !in y
    ensures Split(x + "\n" + "\n" + y) == done + ["", y]
  {
    SplitAppendNewline(x);
    SplitAppendNewline(x + "\n");
    assert Split(x + "\n" + "\n") == (done + [""]) + [""];
    SplitAppendAfterBreak(x + "\n" + "\n", done + [""], y);
    assert (done + [""]) + [y] == done + ["", y];
  }

  /** Regrouping a concatenation. */
  lemma ConcatAssoc(a: string, b: string, c: string)
    ensures a + (b + c) == (a + b) + c
  {
  }

  /** A common prefix can be dropped from both sides of an equation. */
  lemma PrefixCancel(p: string, a: string, b: string)
    ensures p + a == p + b <==> a == b
  {
    if p + a == p + b {
      assert a == (p + a)[|p|..] && b == (p + b)[|p|..];
    }
  }
}
