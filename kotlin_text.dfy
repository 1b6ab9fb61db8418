/** The pieces of the Kotlin standard library the settings store relies on:
    nullable values, `orEmpty()`, `joinToString(separator)`, `split(separator)`
    on a one-character separator, and `filter { it.isNotEmpty() }`. */
module KotlinText {

  /** A Kotlin nullable value: `None` stands for `null`. */
  datatype Option<+T> = None | Some(value: T)

  /** A value, or the exception a Kotlin expression throws instead. */
  datatype Result<+T, +E> = Ok(value: T) | Failure(error: E)

  /** `s.orEmpty()` on a nullable string. */
  function OrEmpty(s: Option<string>): string
  {
    if s.Some? then s.value else ""
  }

  /** `xs.joinToString(separator = sep)`: the elements with `sep` between them. */
  function Join(xs: seq<string>, sep: char): string
  {
    if xs == [] then ""
    else if |xs| == 1 then xs[0]
    else xs[0] + [sep] + Join(xs[1..], sep)
  }

  /** `s.split(sep)`: cuts `s` at every occurrence of `sep`. As in Kotlin, the
      result is never empty ("" splits into [""]) and keeps empty pieces
      between adjacent separators. */
  function Split(s: string, sep: char): (r: seq<string>)
    ensures |r| >= 1
    ensures forall i :: 0 <= i < |r| ==> sep !in r[i]
    decreases |s|
  {
    if s == [] then [""]
    else
      var rest := Split(s[1..], sep);
      if s[0] == sep then [""] + rest
      else [[s[0]] + rest[0]] + rest[1..]
  }

  /** `xs.filter { it.isNotEmpty() }`. */
  function NonEmpty(xs: seq<string>): (r: seq<string>)
    ensures forall i :: 0 <= i < |r| ==> r[i] != "" && r[i] in xs
    ensures forall x :: x in xs && x != "" ==> x in r
    ensures |r| <= |xs|
  {
    if xs == [] then []
    else if xs[0] == "" then NonEmpty(xs[1..])
    else [xs[0]] + NonEmpty(xs[1..])
  }

  /** Filtering a concatenation filters each part and keeps their order. */
  lemma {:induction false} NonEmptyAppend(xs: seq<string>, ys: seq<string>)
    ensures NonEmpty(xs + ys) == NonEmpty(xs) + NonEmpty(ys)
  {
    if xs != [] {
      assert (xs + ys)[0] == xs[0];
      assert (xs + ys)[1..] == xs[1..] + ys;
      NonEmptyAppend(xs[1..], ys);
    } else {
      assert xs + ys == ys;
    }
  }

  /** Filtering changes nothing when no element is empty. */
  lemma {:induction false} NonEmptyKeepsAll(xs: seq<string>)
    requires forall i :: 0 <= i < |xs| ==> xs[i] != ""
    ensures NonEmpty(xs) == xs
  {
    if xs != [] {
      NonEmptyKeepsAll(xs[1..]);
    }
  }

  /** A string without the separator splits into itself alone. */
  lemma {:induction false} SplitWithoutSeparator(a: string, sep: char)
    requires sep !in a
    ensures Split(a, sep) == [a]
    decreases |a|
  {
    if a != [] {
      SplitWithoutSeparator(a[1..], sep);
      assert [a[0]] + a[1..] == a;
    }
  }

  /** Splitting `a + sep + t`, with no separator in `a`, yields `a` first. */
  lemma {:induction false} SplitAfterPiece(a: string, t: string, sep: char)
    requires sep !in a
    ensures Split(a + [sep] + t, sep) == [a] + Split(t, sep)
    decreases |a|
  {
    var s := a + [sep] + t;
    if a == [] {
      assert s == [sep] + t;
      assert s[1..] == t;
    } else {
      SplitAfterPiece(a[1..], t, sep);
      assert s[0] == a[0];
      assert s[1..] == a[1..] + [sep] + t;
      assert [a[0]] + a[1..] == a;
    }
  }

  /** Round trip one way: splitting a joined non-empty list whose elements do
      not contain the separator gives the list back. */
  lemma {:induction false} SplitJoin(xs: seq<string>, sep: char)
    requires |xs| >= 1
    requires forall i :: 0 <= i < |xs| ==> sep !in xs[i]
    ensures Split(Join(xs, sep), sep) == xs
  {
    if |xs| == 1 {
      SplitWithoutSeparator(xs[0], sep);
    } else {
      SplitJoin(xs[1..], sep);
      SplitAfterPiece(xs[0], Join(xs[1..], sep), sep);
      assert [xs[0]] + xs[1..] == xs;
    }
  }

  /** Joining `[c + h] + t` is `c` followed by joining `[h] + t`. */
  lemma JoinPrepend(c: char, rest: seq<string>, sep: char)
    requires |rest| >= 1
    ensures Join([[c] + rest[0]] + rest[1..], sep) == [c] + Join(rest, sep)
  {
  }

  /** Round trip the other way: joining the pieces of a split restores the
      string, so `Split` loses nothing. */
  lemma {:induction false} JoinSplit(s: string, sep: char)
    ensures Join(Split(s, sep), sep) == s
    decreases |s|
  {
    if s != [] {
      var rest := Split(s[1..], sep);
      JoinSplit(s[1..], sep);
      if s[0] == sep {
        assert ([""] + rest)[1..] == rest;
        assert [sep] + s[1..] == s;
      } else {
        JoinPrepend(s[0], rest, sep);
        assert [s[0]] + s[1..] == s;
      }
    }
  }

  /** Decoding a joined list by split-then-filter gives the non-empty
      elements, in order, whenever no element contains the separator. */
  lemma JoinThenDecode(xs: seq<string>, sep: char)
    requires forall i :: 0 <= i < |xs| ==> sep !in xs[i]
    ensures NonEmpty(Split(Join(xs, sep), sep)) == NonEmpty(xs)
  {
    if xs == [] {
      assert Split("", sep) == [""];
      assert NonEmpty([""]) == NonEmpty([""][1..]);
    } else {
      SplitJoin(xs, sep);
    }
  }
}
