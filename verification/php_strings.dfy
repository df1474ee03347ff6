/** The PHP string built-ins the plugin relies on, over `seq<char>`. */
module PhpStrings {

  /** `implode($sep, $pieces)`: the pieces in order, with `sep` between neighbours. */
  function Implode(sep: string, pieces: seq<string>): string
  {
    if |pieces| == 0 then ""
    else if |pieces| == 1 then pieces[0]
    else pieces[0] + sep + Implode(sep, pieces[1..])
  }

  /** `explode('/', $s)`: the text between slashes, empty pieces included. */
  function Explode(s: string): (pieces: seq<string>)
    ensures |pieces| >= 1
  {
    if s == [] then [[]]
    else
      var rest := Explode(s[1..]);
      if s[0] == '/' then [[]] + rest else [[s[0]] + rest[0]] + rest[1..]
  }

  /** `ltrim($s, '/')`: drops the leading slashes. */
  function LTrimSlashes(s: string): (r: string)
    ensures |r| <= |s| && r == s[|s| - |r|..]
    ensures r == [] || r[0] != '/'
  {
    if s != [] && s[0] == '/' then LTrimSlashes(s[1..]) else s
  }

  /** `rtrim($s, '/\\')`: drops the trailing slashes and backslashes. */
  function RTrimSlashes(s: string): (r: string)
    ensures |r| <= |s| && r == s[..|r|]
    ensures r == [] || (r[|r| - 1] != '/' && r[|r| - 1] != '\\')
  {
    if s != [] && (s[|s| - 1] == '/' || s[|s| - 1] == '\\') then RTrimSlashes(s[..|s| - 1]) else s
  }

  predicate NoSlash(s: string)
  {
    forall i :: 0 <= i < |s| ==> s[i] != '/'
  }

  /** A slash-free word followed by '/' explodes into that word and the pieces of the rest. */
  lemma {:induction false} ExplodeWord(w: string, rest: string)
    requires NoSlash(w)
    ensures Explode(w + "/" + rest) == [w] + Explode(rest)
    decreases |w|
  {
    if w == [] {
      assert w + "/" + rest == "/" + rest;
      assert ("/" + rest)[1..] == rest;
    } else {
      var s := w + "/" + rest;
      assert s[0] == w[0];
      assert s[1..] == w[1..] + "/" + rest;
      ExplodeWord(w[1..], rest);
      assert [w[0]] + w[1..] == w;
    }
  }

  /** A word without slashes is one piece. */
  lemma {:induction false} ExplodeNoSlash(w: string)
    requires NoSlash(w)
    ensures Explode(w) == [w]
    decreases |w|
  {
    if w != [] {
      ExplodeNoSlash(w[1..]);
      assert [w[0]] + w[1..] == w;
    }
  }

  /** `explode('/', implode('/', $xs)) == $xs` for slash-free pieces. */
  lemma {:induction false} ExplodeImplode(xs: seq<string>)
    requires |xs| > 0
    requires forall i :: 0 <= i < |xs| ==> NoSlash(xs[i])
    ensures Explode(Implode("/", xs)) == xs
    decreases |xs|
  {
    if |xs| == 1 {
      ExplodeNoSlash(xs[0]);
    } else {
      ExplodeWord(xs[0], Implode("/", xs[1..]));
      ExplodeImplode(xs[1..]);
      assert [xs[0]] + xs[1..] == xs;
    }
  }

  /** `rtrim` leaves a string alone when it does not end in a slash or backslash. */
  lemma RTrimKeeps(s: string)
    requires s == [] || (s[|s| - 1] != '/' && s[|s| - 1] != '\\')
    ensures RTrimSlashes(s) == s
  {
  }

  /** `rtrim` removes exactly one trailing slash after a clean ending. */
  lemma RTrimOneSlash(s: string)
    requires s == [] || (s[|s| - 1] != '/' && s[|s| - 1] != '\\')
    ensures RTrimSlashes(s + "/") == s
  {
    assert (s + "/")[..|s|] == s;
  }
}
