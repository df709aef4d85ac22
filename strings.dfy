/**
 * Python's `str.split(sep)` for a one-character separator, and its inverse,
 * `sep.join(pieces)`.
 */
module Strings {

  /** `sep.join(pieces)`; a split always yields at least one piece. */
  function Join(pieces: seq<string>, sep: char): string
    requires |pieces| >= 1
    decreases |pieces|
  {
    if |pieces| == 1 then pieces[0] else pieces[0] + [sep] + Join(pieces[1..], sep)
  }

  /**
   * `s.split(sep)`: the maximal runs of `s` between occurrences of `sep`, in
   * order. There is one more piece than there are separators ("" gives [""],
   * ">" gives ["", ""]); no piece contains `sep`, and joining the pieces
   * with `sep` gives back `s`.
   */
  function Split(s: string, sep: char): (pieces: seq<string>)
    ensures |pieces| == multiset(s)[sep] + 1
    ensures forall i :: 0 <= i < |pieces| ==> sep !in pieces[i]
    ensures Join(pieces, sep) == s
    decreases |s|
  {
    if |s| == 0 then [""]
    else
      assert s == [s[0]] + s[1..];
      var rest := Split(s[1..], sep);
      CountFirst(s, sep);
      if s[0] == sep then
        EmptyFirstPiece(rest, sep);
        [""] + rest
      else
        ExtendFirstPiece(s[0], rest, sep);
        JoinConsFirst(s[0], rest, sep);
        [[s[0]] + rest[0]] + rest[1..]
  }

  /** The first character adds one to the count of `sep` exactly when it is `sep`. */
  lemma CountFirst(s: string, sep: char)
    requires |s| >= 1
    ensures multiset(s)[sep] == multiset(s[1..])[sep] + (if s[0] == sep then 1 else 0)
  {
    assert s == [s[0]] + s[1..];
  }

  /** A leading empty piece keeps the pieces free of `sep` and puts `sep` in front of the join. */
  lemma EmptyFirstPiece(pieces: seq<string>, sep: char)
    requires |pieces| >= 1
    requires forall i :: 0 <= i < |pieces| ==> sep !in pieces[i]
    ensures forall i :: 0 <= i < |[""] + pieces| ==> sep !in ([""] + pieces)[i]
    ensures Join([""] + pieces, sep) == [sep] + Join(pieces, sep)
  {
    assert ([""] + pieces)[1..] == pieces;
  }

  /** Prefixing the first piece with a character other than `sep` keeps every piece free of `sep`. */
  lemma ExtendFirstPiece(c: char, pieces: seq<string>, sep: char)
    requires c != sep && |pieces| >= 1
    requires forall i :: 0 <= i < |pieces| ==> sep !in pieces[i]
    ensures forall i :: 0 <= i < |[[c] + pieces[0]] + pieces[1..]| ==> sep !in ([[c] + pieces[0]] + pieces[1..])[i]
  {
    var longer := [[c] + pieces[0]] + pieces[1..];
    forall i | 0 <= i < |longer| ensures sep !in longer[i] {
      if i > 0 {
        assert longer[i] == pieces[i];
      }
    }
  }

  /** Prefixing the first piece with a character prefixes the joined string. */
  lemma {:induction false} JoinConsFirst(c: char, pieces: seq<string>, sep: char)
    requires |pieces| >= 1
    ensures Join([[c] + pieces[0]] + pieces[1..], sep) == [c] + Join(pieces, sep)
  {
    var first := [[c] + pieces[0]] + pieces[1..];
    assert first[1..] == pieces[1..];
  }

  /**
   * `Split` inverts `Join`: any non-empty list of pieces free of `sep` is
   * exactly what splitting their join gives back.
   */
  lemma {:induction false} SplitJoin(pieces: seq<string>, sep: char)
    requires |pieces| >= 1
    requires forall i :: 0 <= i < |pieces| ==> sep !in pieces[i]
    ensures Split(Join(pieces, sep), sep) == pieces
    decreases |pieces|, |pieces[0]|, 1
  {
    if |pieces| == 1 {
      SplitPiece(pieces[0], sep);
    } else if |pieces[0]| == 0 {
      SplitJoinEmptyFirst(pieces, sep);
    } else {
      SplitJoinLongerFirst(pieces, sep);
    }
  }

  /** `SplitJoin` when the first piece is empty: the join starts with `sep`. */
  lemma {:induction false} SplitJoinEmptyFirst(pieces: seq<string>, sep: char)
    requires |pieces| >= 2 && pieces[0] == ""
    requires forall i :: 0 <= i < |pieces| ==> sep !in pieces[i]
    ensures Split(Join(pieces, sep), sep) == pieces
    decreases |pieces|, |pieces[0]|, 0
  {
    var tail := Join(pieces[1..], sep);
    assert Join(pieces, sep) == [sep] + tail;
    SplitJoin(pieces[1..], sep);
    SplitSep(tail, sep);
    assert pieces == [""] + pieces[1..];
  }

  /** `SplitJoin` when the first piece is not empty: its first character starts the join. */
  lemma {:induction false} SplitJoinLongerFirst(pieces: seq<string>, sep: char)
    requires |pieces| >= 2 && |pieces[0]| >= 1
    requires forall i :: 0 <= i < |pieces| ==> sep !in pieces[i]
    ensures Split(Join(pieces, sep), sep) == pieces
    decreases |pieces|, |pieces[0]|, 0
  {
    var c := pieces[0][0];
    var shorter := [pieces[0][1..]] + pieces[1..];
    assert c != sep by {
      assert c in pieces[0];
    }
    assert pieces == [[c] + shorter[0]] + shorter[1..] by {
      assert pieces[0] == [c] + shorter[0];
      assert shorter[1..] == pieces[1..];
    }
    assert Join(pieces, sep) == [c] + Join(shorter, sep) by {
      JoinConsFirst(c, shorter, sep);
    }
    SeparatorFreeTail(pieces, sep);
    SplitJoin(shorter, sep);
    SplitCons(c, Join(shorter, sep), sep);
  }

  /** Dropping the first character of the first piece keeps every piece free of `sep`. */
  lemma SeparatorFreeTail(pieces: seq<string>, sep: char)
    requires |pieces| >= 1 && |pieces[0]| >= 1
    requires forall i :: 0 <= i < |pieces| ==> sep !in pieces[i]
    ensures forall i :: 0 <= i < |[pieces[0][1..]] + pieces[1..]| ==> sep !in ([pieces[0][1..]] + pieces[1..])[i]
  {
    var shorter := [pieces[0][1..]] + pieces[1..];
    forall i | 0 <= i < |shorter| ensures sep !in shorter[i] {
      if i == 0 {
        assert forall x :: x in pieces[0][1..] ==> x in pieces[0];
      } else {
        assert shorter[i] == pieces[i];
      }
    }
  }

  /** A leading separator splits off an empty first piece. */
  lemma SplitSep(s: string, sep: char)
    ensures Split([sep] + s, sep) == [""] + Split(s, sep)
  {
    assert ([sep] + s)[1..] == s;
  }

  /** A leading character other than `sep` joins the first piece. */
  lemma SplitCons(c: char, s: string, sep: char)
    requires c != sep
    ensures Split([c] + s, sep) == [[c] + Split(s, sep)[0]] + Split(s, sep)[1..]
  {
    assert ([c] + s)[1..] == s;
  }

  /** A string free of `sep` splits into itself alone. */
  lemma {:induction false} SplitPiece(s: string, sep: char)
    requires sep !in s
    ensures Split(s, sep) == [s]
    decreases |s|
  {
    if |s| > 0 {
      assert sep !in s[1..] by {
        assert forall x :: x in s[1..] ==> x in s;
      }
      SplitPiece(s[1..], sep);
      assert s == [s[0]] + s[1..];
    }
  }
}
