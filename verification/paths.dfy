/**
 * URL paths built the way the plugin builds them: each slug followed by '/',
 * appended one at a time (`$s .= $slug . '/'`).
 */
module Paths {
  import opened PhpStrings
  import opened WordPress

  /** The string `''` grows into after `.= $slug . '/'` for each slug in turn. */
  function SlugPath(slugs: seq<string>): string
  {
    if slugs == [] then "" else SlugPath(slugs[..|slugs| - 1]) + slugs[|slugs| - 1] + "/"
  }

  /** Prepending a slug puts it, with its slash, in front. */
  lemma {:induction false} SlugPathCons(x: string, xs: seq<string>)
    ensures SlugPath([x] + xs) == x + "/" + SlugPath(xs)
    decreases |xs|
  {
    if xs != [] {
      var ys := [x] + xs;
      assert ys[..|ys| - 1] == [x] + xs[..|xs| - 1];
      SlugPathCons(x, xs[..|xs| - 1]);
    }
  }

  /** A slug path is the slugs imploded with '/', plus the trailing '/'. */
  lemma {:induction false} SlugPathIsImplode(xs: seq<string>)
    requires |xs| > 0
    ensures SlugPath(xs) == Implode("/", xs) + "/"
    decreases |xs|
  {
    SlugPathCons(xs[0], xs[1..]);
    assert [xs[0]] + xs[1..] == xs;
    if |xs| > 1 {
      SlugPathIsImplode(xs[1..]);
    }
  }

  /** Slugs never contain '/'. */
  lemma ValidSlugNoSlash(s: string)
    requires ValidSlug(s)
    ensures NoSlash(s)
  {
  }

  /** Exploding a slug path and a tail gives back the slugs, then the pieces of the tail. */
  lemma {:induction false} ExplodeSlugPath(xs: seq<string>, tail: string)
    requires ValidSlugs(xs)
    ensures Explode(SlugPath(xs) + tail) == xs + Explode(tail)
    decreases |xs|
  {
    if xs == [] {
      assert SlugPath(xs) + tail == tail;
    } else {
      var x, more := xs[0], xs[1..];
      assert ValidSlugs(more);
      ExplodeSlugPath(more, tail);
      ExplodeStep(x, more, tail);
      assert [x] + more == xs;
      var pieces := Explode(tail);
      assert [x] + (more + pieces) == xs + pieces;
    }
  }

  /** One slug in front of a slug path whose pieces are already known. */
  lemma ExplodeStep(x: string, more: seq<string>, tail: string)
    requires ValidSlug(x)
    requires Explode(SlugPath(more) + tail) == more + Explode(tail)
    ensures Explode(SlugPath([x] + more) + tail) == [x] + (more + Explode(tail))
  {
    var rest := SlugPath(more) + tail;
    SlugPathCons(x, more);
    assert SlugPath([x] + more) + tail == x + "/" + rest;
    ValidSlugNoSlash(x);
    ExplodeWord(x, rest);
  }

  /** A slug path explodes into one piece per slug and a final empty piece. */
  lemma SlugPathSegments(xs: seq<string>)
    requires ValidSlugs(xs)
    ensures Explode(SlugPath(xs)) == xs + [""]
  {
    ExplodeSlugPath(xs, "");
    assert SlugPath(xs) + "" == SlugPath(xs);
  }

  /** A non-empty slug path never starts with '/' and always ends with it. */
  lemma SlugPathEnds(xs: seq<string>)
    requires |xs| > 0 && ValidSlugs(xs)
    ensures |SlugPath(xs)| > 1 && SlugPath(xs)[0] != '/' && SlugPath(xs)[|SlugPath(xs)| - 1] == '/'
  {
    SlugPathCons(xs[0], xs[1..]);
    assert [xs[0]] + xs[1..] == xs;
    assert SlugPath(xs)[0] == xs[0][0];
  }
}
