/** The PHP string functions the WidePay client relies on: explode on a
    one-character separator, its inverse implode, and strtoupper. */
module Strings {

  /** Number of occurrences of `c` in `s`. */
  function Count(c: char, s: string): (n: nat)
    ensures n == 0 <==> c !in s
    ensures n <= |s|
  {
    if s == [] then 0
    else (if s[0] == c then 1 else 0) + Count(c, s[1..])
  }

  /** explode(sep, s): the pieces of `s` between occurrences of `sep`. There is
      always one piece more than there are separators, and no piece contains
      the separator. */
  function Explode(sep: char, s: string): (pieces: seq<string>)
    ensures |pieces| == Count(sep, s) + 1
    ensures forall k :: 0 <= k < |pieces| ==> sep !in pieces[k]
    decreases |s|
  {
    if s == [] then [""]
    else
      var rest := Explode(sep, s[1..]);
      if s[0] == sep then [""] + rest
      else [[s[0]] + rest[0]] + rest[1..]
  }

  /** implode(sep, pieces). */
  function Join(sep: char, pieces: seq<string>): string
  {
    if |pieces| == 0 then ""
    else if |pieces| == 1 then pieces[0]
    else pieces[0] + [sep] + Join(sep, pieces[1..])
  }

  predicate PiecesFree(sep: char, pieces: seq<string>)
  {
    forall k :: 0 <= k < |pieces| ==> sep !in pieces[k]
  }

  /** Gluing a prefix onto the first piece glues it onto the joined string. */
  lemma JoinPrefix(sep: char, a: string, pieces: seq<string>)
    requires |pieces| >= 1
    ensures Join(sep, [a + pieces[0]] + pieces[1..]) == a + Join(sep, pieces)
  {
  }

  /** implode undoes explode. */
  lemma {:induction false} JoinExplode(sep: char, s: string)
    ensures Join(sep, Explode(sep, s)) == s
    decreases |s|
  {
    if s != [] {
      var rest := Explode(sep, s[1..]);
      JoinExplode(sep, s[1..]);
      if s[0] == sep {
        var pieces := [""] + rest;
        assert pieces[1..] == rest;
        assert Join(sep, pieces) == "" + [sep] + Join(sep, rest);
        assert s == [sep] + s[1..];
      } else {
        JoinPrefix(sep, [s[0]], rest);
        assert s == [s[0]] + s[1..];
      }
    }
  }

  /** A prefix free of the separator sticks to the first piece. */
  lemma {:induction false} ExplodeFreePrefix(sep: char, a: string, s: string)
    requires sep !in a
    ensures Explode(sep, a + s) == [a + Explode(sep, s)[0]] + Explode(sep, s)[1..]
    decreases |a|
  {
    var e := Explode(sep, s);
    if a == [] {
      assert a + s == s;
      assert a + e[0] == e[0];
      assert [e[0]] + e[1..] == e;
    } else {
      ExplodeFreePrefix(sep, a[1..], s);
      assert (a + s)[0] == a[0];
      assert (a + s)[1..] == a[1..] + s;
      assert [a[0]] + (a[1..] + e[0]) == a + e[0];
    }
  }

  /** explode undoes implode when no piece holds the separator. */
  lemma {:induction false} ExplodeJoin(sep: char, pieces: seq<string>)
    requires |pieces| >= 1 && PiecesFree(sep, pieces)
    ensures Explode(sep, Join(sep, pieces)) == pieces
    decreases |pieces|
  {
    if |pieces| == 1 {
      ExplodeFreePrefix(sep, pieces[0], "");
      assert pieces[0] + "" == pieces[0];
    } else {
      var tail := Join(sep, pieces[1..]);
      ExplodeJoin(sep, pieces[1..]);
      var t := [sep] + tail;
      assert t[0] == sep && t[1..] == tail;
      assert Explode(sep, t) == [""] + pieces[1..];
      ExplodeFreePrefix(sep, pieces[0], t);
      assert pieces[0] + [sep] + tail == pieces[0] + t;
      assert pieces[0] + "" == pieces[0];
      assert ([""] + pieces[1..])[1..] == pieces[1..];
      assert [pieces[0]] + pieces[1..] == pieces;
    }
  }

  /** A string without the separator explodes to itself alone. */
  lemma ExplodeWithoutSep(sep: char, s: string)
    requires sep !in s
    ensures Explode(sep, s) == [s]
  {
    ExplodeFreePrefix(sep, s, "");
    assert s + "" == s;
  }

  lemma Regroup(a: string, b: string, c: string, d: string)
    ensures a + b + c + d == a + (b + (c + d))
  {
  }

  /** A string that starts with the separator starts with an empty piece. */
  lemma ExplodeLeadingSep(sep: char, t: string)
    requires t != [] && t[0] == sep
    ensures Explode(sep, t) == [""] + Explode(sep, t[1..])
  {
  }

  /** For `first sep second rest` with no separator in the first two tokens and
      `rest` empty or starting with the separator, the second piece is `second`. */
  lemma SecondPiece(sep: char, first: string, second: string, rest: string)
    requires sep !in first && sep !in second
    requires rest == [] || rest[0] == sep
    ensures |Explode(sep, first + [sep] + second + rest)| >= 2
    ensures Explode(sep, first + [sep] + second + rest)[1] == second
  {
    var line := first + [sep] + second + rest;
    var f := Explode(sep, rest);
    if rest != [] {
      ExplodeLeadingSep(sep, rest);
    }
    assert f[0] == "";
    ExplodeFreePrefix(sep, second, rest);
    var g := Explode(sep, second + rest);
    assert g[0] == second;
    var t := [sep] + (second + rest);
    assert t[1..] == second + rest;
    ExplodeLeadingSep(sep, t);
    var h := Explode(sep, t);
    assert h == [""] + g;
    ExplodeFreePrefix(sep, first, t);
    Regroup(first, [sep], second, rest);
    assert Explode(sep, line) == [first + h[0]] + h[1..];
  }

  function UpperChar(c: char): (u: char)
  {
    if 'a' <= c <= 'z' then (c as int - 32) as char else c
  }

  /** strtoupper: ASCII letters only, everything else unchanged. */
  function ToUpper(s: string): (r: string)
    ensures |r| == |s|
    ensures forall k :: 0 <= k < |s| ==> r[k] == UpperChar(s[k])
  {
    if s == [] then [] else [UpperChar(s[0])] + ToUpper(s[1..])
  }
}
