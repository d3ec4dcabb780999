/** The few Python `str` operations the terminal launcher relies on:
    `sep.join`, `str.split(sep)` for a one-character separator,
    `str.replace` of a single character, `startswith` and `endswith`. */
module PyStrings {

  /** `sep.join(parts)`: the parts with `sep` between neighbours. */
  function Join(parts: seq<string>, sep: string): string
    decreases |parts|
  {
    if |parts| == 0 then ""
    else if |parts| == 1 then parts[0]
    else parts[0] + sep + Join(parts[1..], sep)
  }

  /** `s.split(sep)` for a one-character `sep`: cuts at every occurrence of
      `sep` and keeps empty pieces, so `"".split(":") == [""]` and
      `":".split(":") == ["", ""]`. */
  function Split(s: string, sep: char): (r: seq<string>)
    ensures |r| >= 1
    ensures forall i :: 0 <= i < |r| ==> sep !in r[i]
    decreases |s|
  {
    if |s| == 0 then [""]
    else if s[0] == sep then [""] + Split(s[1..], sep)
    else
      var rest := Split(s[1..], sep);
      [[s[0]] + rest[0]] + rest[1..]
  }

  /** `s.replace(c, repl)` for a one-character `c`: every occurrence of `c`
      becomes `repl`, everything else is kept. */
  function ReplaceChar(s: string, c: char, repl: string): (r: string)
    ensures c !in repl ==> c !in r
    decreases |s|
  {
    if |s| == 0 then ""
    else (if s[0] == c then repl else [s[0]]) + ReplaceChar(s[1..], c, repl)
  }

  predicate StartsWith(s: string, prefix: string)
  {
    |prefix| <= |s| && s[..|prefix|] == prefix
  }

  predicate EndsWith(s: string, suffix: string)
  {
    |suffix| <= |s| && s[|s| - |suffix|..] == suffix
  }

  /** The text of `s` before the first `c` (all of `s` when there is none). */
  function TakeUntil(s: string, c: char): (r: string)
    ensures |r| <= |s| && s[..|r|] == r && c !in r
    ensures |r| < |s| ==> s[|r|] == c
    decreases |s|
  {
    if |s| == 0 || s[0] == c then "" else [s[0]] + TakeUntil(s[1..], c)
  }

  /** Splitting what joining produced gives the parts back, as long as no
      part contains the separator. */
  lemma {:induction false} SplitJoin(parts: seq<string>, sep: char)
    requires |parts| >= 1
    requires forall i :: 0 <= i < |parts| ==> sep !in parts[i]
    ensures Split(Join(parts, [sep]), sep) == parts
    decreases |parts|
  {
    if |parts| == 1 {
      SplitWithoutSep(parts[0], sep);
    } else {
      SplitJoin(parts[1..], sep);
      assert Join(parts, [sep]) == parts[0] + [sep] + Join(parts[1..], [sep]);
      SplitPrefix(parts[0], sep, Join(parts[1..], [sep]));
      assert parts == [parts[0]] + parts[1..];
    }
  }

  /** Joining the pieces of a split with the separator restores the string. */
  lemma {:induction false} JoinSplit(s: string, sep: char)
    ensures Join(Split(s, sep), [sep]) == s
    decreases |s|
  {
    if |s| == 0 {
    } else {
      JoinSplit(s[1..], sep);
      var rest := Split(s[1..], sep);
      if s[0] == sep {
        assert Split(s, sep) == [""] + rest;
        assert Join([""] + rest, [sep]) == "" + [sep] + Join(rest, [sep]);
        assert s == [sep] + s[1..];
      } else {
        JoinConsHead(s[0], rest, sep);
        assert s == [s[0]] + s[1..];
      }
    }
  }

  /** Putting a character in front of the first piece puts it in front of the
      joined string. */
  lemma {:induction false} JoinConsHead(x: char, pieces: seq<string>, sep: char)
    requires |pieces| >= 1
    ensures Join([[x] + pieces[0]] + pieces[1..], [sep]) == [x] + Join(pieces, [sep])
  {
    var q := [[x] + pieces[0]] + pieces[1..];
    assert q[0] == [x] + pieces[0] && q[1..] == pieces[1..];
    if |pieces| == 1 {
      assert Join(q, [sep]) == q[0];
    } else {
      assert Join(q, [sep]) == q[0] + [sep] + Join(pieces[1..], [sep]);
      assert Join(pieces, [sep]) == pieces[0] + [sep] + Join(pieces[1..], [sep]);
    }
  }

  /** A string without the separator is a single piece. */
  lemma {:induction false} SplitWithoutSep(s: string, sep: char)
    requires sep !in s
    ensures Split(s, sep) == [s]
    decreases |s|
  {
    if |s| > 0 {
      SplitWithoutSep(s[1..], sep);
      assert s == [s[0]] + s[1..];
    }
  }

  /** A separator-free head followed by the separator becomes the first piece. */
  lemma {:induction false} SplitPrefix(head: string, sep: char, tail: string)
    requires sep !in head
    ensures Split(head + [sep] + tail, sep) == [head] + Split(tail, sep)
    decreases |head|
  {
    var s := head + [sep] + tail;
    if |head| == 0 {
      assert s[1..] == tail;
    } else {
      SplitPrefix(head[1..], sep, tail);
      assert s[1..] == head[1..] + [sep] + tail;
      assert head == [head[0]] + head[1..];
    }
  }

  /** `replace` works piece by piece over a concatenation. */
  lemma {:induction false} ReplaceCharAppend(a: string, b: string, c: char, repl: string)
    ensures ReplaceChar(a + b, c, repl) == ReplaceChar(a, c, repl) + ReplaceChar(b, c, repl)
    decreases |a|
  {
    if |a| == 0 {
      assert a + b == b;
    } else {
      ReplaceCharAppend(a[1..], b, c, repl);
      var ab := a + b;
      var head := if a[0] == c then repl else [a[0]];
      assert ab[0] == a[0] && ab[1..] == a[1..] + b;
      assert ReplaceChar(ab, c, repl) == head + ReplaceChar(a[1..] + b, c, repl);
      assert ReplaceChar(a, c, repl) == head + ReplaceChar(a[1..], c, repl);
    }
  }

  /** The text before the first `c` of `head + [c] + tail` is `head` when
      `head` holds no `c`. */
  lemma {:induction false} TakeUntilPrefix(head: string, c: char, tail: string)
    requires c !in head
    ensures TakeUntil(head + [c] + tail, c) == head
    decreases |head|
  {
    if |head| > 0 {
      TakeUntilPrefix(head[1..], c, tail);
      assert (head + [c] + tail)[1..] == head[1..] + [c] + tail;
      assert head == [head[0]] + head[1..];
    }
  }
}
