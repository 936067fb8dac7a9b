/**
 * The words of a command line: the pieces between single spaces.  They are
 * the arguments the command is split into before it is started only when
 * every piece is non-empty, the text holds no whitespace other than single
 * spaces, and it holds no quotes or backslashes.  `Join` is the inverse of
 * `Split` (`SplitJoin`).
 */
module Words {

  /** Cuts `s` at every space; an empty piece stands between two adjacent spaces. */
  function Split(s: string): (ws: seq<string>)
    ensures |ws| >= 1
    decreases |s|
  {
    if s == [] then [""]
    else if s[0] == ' ' then [""] + Split(s[1..])
    else var rest := Split(s[1..]); [[s[0]] + rest[0]] + rest[1..]
  }

  /** Puts one space between consecutive words. */
  function Join(ws: seq<string>): string
    decreases |ws|
  {
    if |ws| == 0 then "" else if |ws| == 1 then ws[0] else ws[0] + " " + Join(ws[1..])
  }

  predicate NoSpace(ws: seq<string>) {
    forall i :: 0 <= i < |ws| ==> ' ' !in ws[i]
  }

  /** A word without a space splits to itself. */
  lemma {:induction false} SplitWord(w: string)
    requires ' ' !in w
    ensures Split(w) == [w]
    decreases |w|
  {
    if w != [] {
      assert w[0] != ' ';
      SplitWord(w[1..]);
      assert [w[0]] + w[1..] == w;
    }
  }

  /** A leading word without a space comes off as the first piece. */
  lemma {:induction false} SplitFront(w: string, rest: string)
    requires ' ' !in w
    ensures Split(w + " " + rest) == [w] + Split(rest)
    decreases |w|
  {
    if w == [] {
      assert w + " " + rest == [' '] + rest;
      assert (w + " " + rest)[1..] == rest;
    } else {
      var s := w + " " + rest;
      assert s[0] == w[0];
      assert s[1..] == w[1..] + " " + rest;
      SplitFront(w[1..], rest);
      assert [w[0]] + w[1..] == w;
    }
  }

  /** Splitting words joined by spaces gives the words back. */
  lemma {:induction false} SplitJoin(ws: seq<string>)
    requires |ws| >= 1 && NoSpace(ws)
    ensures Split(Join(ws)) == ws
    decreases |ws|
  {
    if |ws| == 1 {
      SplitWord(ws[0]);
    } else {
      SplitFront(ws[0], Join(ws[1..]));
      assert NoSpace(ws[1..]) by {
        forall i | 0 <= i < |ws[1..]| ensures ' ' !in ws[1..][i] {
          assert ws[1..][i] == ws[i + 1];
        }
      }
      SplitJoin(ws[1..]);
    }
  }

  /** The pieces of `a + b`: the last piece of `a` runs into the first piece of `b`. */
  function Merge(xs: seq<string>, ys: seq<string>): seq<string>
    requires |xs| >= 1 && |ys| >= 1
  {
    xs[..|xs| - 1] + [xs[|xs| - 1] + ys[0]] + ys[1..]
  }

  lemma MergeCons(x: string, xs: seq<string>, ys: seq<string>)
    requires |xs| >= 1 && |ys| >= 1
    ensures Merge([x] + xs, ys) == [x] + Merge(xs, ys)
  {
    assert ([x] + xs)[..|xs|] == [x] + xs[..|xs| - 1];
  }

  lemma MergeHead(c: char, xs: seq<string>, ys: seq<string>)
    requires |xs| >= 1 && |ys| >= 1
    ensures var m := Merge(xs, ys);
      Merge([[c] + xs[0]] + xs[1..], ys) == [[c] + m[0]] + m[1..]
  {
    var m := Merge(xs, ys);
    if |xs| == 1 {
      assert m == [xs[0] + ys[0]] + ys[1..];
      assert [c] + (xs[0] + ys[0]) == [c] + xs[0] + ys[0];
    } else {
      assert m[0] == xs[0];
      assert m[1..] == xs[1..][..|xs| - 2] + [xs[|xs| - 1] + ys[0]] + ys[1..];
    }
  }

  /** Splitting distributes over concatenation. */
  lemma {:induction false} SplitConcat(a: string, b: string)
    ensures Split(a + b) == Merge(Split(a), Split(b))
    decreases |a|
  {
    if a == [] {
      assert a + b == b;
      var ys := Split(b);
      assert Merge([""], ys) == [] + ["" + ys[0]] + ys[1..];
      assert "" + ys[0] == ys[0];
    } else {
      var ab := a + b;
      assert ab[0] == a[0];
      assert ab[1..] == a[1..] + b;
      SplitConcat(a[1..], b);
      if a[0] == ' ' {
        MergeCons("", Split(a[1..]), Split(b));
      } else {
        MergeHead(a[0], Split(a[1..]), Split(b));
      }
    }
  }

  /** Text on both sides of a space splits on its own. */
  lemma SplitSpace(s: string, t: string)
    ensures Split(s + " " + t) == Split(s) + Split(t)
  {
    assert s + " " + t == s + (" " + t);
    var st := " " + t;
    assert st[0] == ' ' && st[1..] == t;
    SplitConcat(s, st);
    var xs := Split(s);
    assert xs[|xs| - 1] + "" == xs[|xs| - 1];
    assert xs[..|xs| - 1] + [xs[|xs| - 1]] == xs;
  }

  /** A word without a space after a space becomes one more piece. */
  lemma SplitSnoc(s: string, w: string)
    requires ' ' !in w
    ensures Split(s + " " + w) == Split(s) + [w]
  {
    SplitSpace(s, w);
    SplitWord(w);
  }

  /** A flag set off by spaces adds one piece ahead of the pieces of what follows. */
  lemma SplitFlagRest(s: string, flag: string, t: string)
    requires ' ' !in flag
    ensures Split(s + (" " + flag + " ") + t) == Split(s) + [flag] + Split(t)
  {
    assert s + (" " + flag + " ") + t == s + " " + flag + " " + t;
    SplitSnoc(s, flag);
    SplitSpace(s + " " + flag, t);
  }

  /** A flag and its value, each set off by a space, add two pieces. */
  lemma SplitFlagValue(s: string, flag: string, v: string)
    requires ' ' !in flag && ' ' !in v
    ensures Split(s + (" " + flag + " ") + v) == Split(s) + [flag, v]
  {
    assert s + (" " + flag + " ") + v == s + " " + flag + " " + v;
    SplitSnoc(s, flag);
    SplitSnoc(s + " " + flag, v);
  }

  /** A flag glued to its value (`--key=value`) after a space adds one piece. */
  /** A flag glued to a value of any text: the words of the glued text follow. */
  lemma SplitGluedRest(s: string, flag: string, v: string)
    ensures Split(s + (" " + flag) + v) == Split(s) + Split(flag + v)
  {
    assert s + (" " + flag) + v == s + " " + (flag + v);
    SplitSpace(s, flag + v);
  }

  lemma SplitGlued(s: string, flag: string, v: string)
    requires ' ' !in flag && ' ' !in v
    ensures Split(s + (" " + flag) + v) == Split(s) + [flag + v]
  {
    assert s + (" " + flag) + v == s + " " + (flag + v);
    SplitSnoc(s, flag + v);
  }
}
