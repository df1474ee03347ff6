/**
 * The two permalink filters: `wub_term_custom_link` (hooked on `term_link`) and
 * `wub_post_custom_link` (hooked on `post_type_link`).
 */
module Links {
  import opened PhpStrings
  import opened WordPress
  import opened Paths

  /* ---------------------------------------------------------------- terms */

  /** Some public custom post type has `taxonomy` stored as its option (strict `===`, so an unset option never matches). */
  predicate TaxonomyConfigured(site: Site, taxonomy: string)
  {
    exists i :: 0 <= i < |site.postTypes| && GetOption(site, site.postTypes[i]) == Stored(taxonomy)
  }

  /** The post-type loop of the term filter: which configured taxonomy, if any, the term's taxonomy is. */
  method MatchTaxonomy(site: Site, taxonomy: string) returns (current: Option<string>)
    ensures current == Some(taxonomy) <==> TaxonomyConfigured(site, taxonomy)
    ensures current == None <==> !TaxonomyConfigured(site, taxonomy)
  {
    current := None;
    for i := 0 to |site.postTypes|
      invariant current == None || current == Some(taxonomy)
      invariant current == Some(taxonomy) <==>
        exists k :: 0 <= k < i && GetOption(site, site.postTypes[k]) == Stored(taxonomy)
    {
      var name := GetOption(site, site.postTypes[i]);
      if name == Stored(taxonomy) {
        current := Some(name.name);
      }
    }
  }

  /** The nested conditionals that compose a term's link from its parent and grandparent. */
  function TermLink(site: Site, taxonomy: string, term: Term): string
  {
    match GetTerm(site, taxonomy, term.parent)
    case None => site.home + "/" + term.slug + "/"
    case Some(parent) =>
      match GetTerm(site, taxonomy, parent.parent)
      case None => site.home + "/" + parent.slug + "/" + term.slug + "/"
      case Some(grandParent) => site.home + "/" + grandParent.slug + "/" + parent.slug + "/" + term.slug + "/"
  }

  /**
   * Reference definition of the ancestor walk: the slugs of up to `depth`
   * ancestors starting at `parentId`, root-most first; a missing term ends the walk.
   */
  function AncestorChain(site: Site, taxonomy: string, parentId: nat, depth: nat): (chain: seq<string>)
    ensures |chain| <= depth
    decreases depth
  {
    if depth == 0 then []
    else
      match GetTerm(site, taxonomy, parentId)
      case None => []
      case Some(p) => AncestorChain(site, taxonomy, p.parent, depth - 1) + [p.slug]
  }

  /** The segments of a term's canonical path: at most two ancestors, then the term. */
  function TermSegments(site: Site, taxonomy: string, term: Term): seq<string>
  {
    AncestorChain(site, taxonomy, term.parent, 2) + [term.slug]
  }

  /** The term's canonical path below the home address. */
  function TermPath(site: Site, taxonomy: string, term: Term): string
  {
    SlugPath(TermSegments(site, taxonomy, term))
  }

  /**
   * The composed link is the home address, '/', then the term's ancestors
   * (at most parent and grandparent, root-most first) and the term, each followed by '/'.
   */
  lemma TermLinkFollowsChain(site: Site, taxonomy: string, term: Term)
    ensures 1 <= |TermSegments(site, taxonomy, term)| <= 3
    ensures TermLink(site, taxonomy, term) == site.home + "/" + TermPath(site, taxonomy, term)
  {
    TermLinkShapes(site, taxonomy, term);
    match GetTerm(site, taxonomy, term.parent)
    case None =>
      SlugPathOfOne(term.slug);
    case Some(p) =>
      match GetTerm(site, taxonomy, p.parent)
      case None =>
        SlugPathOfTwo(p.slug, term.slug);
      case Some(g) =>
        SlugPathOfThree(g.slug, p.slug, term.slug);
  }

  lemma SlugPathOfOne(a: string)
    ensures SlugPath([a]) == a + "/"
  {
    SlugPathCons(a, []);
  }

  lemma SlugPathOfTwo(a: string, b: string)
    ensures SlugPath([a, b]) == a + "/" + b + "/"
  {
    SlugPathCons(a, [b]);
    SlugPathOfOne(b);
    assert [a] + [b] == [a, b];
  }

  lemma SlugPathOfThree(a: string, b: string, c: string)
    ensures SlugPath([a, b, c]) == a + "/" + b + "/" + c + "/"
  {
    SlugPathCons(a, [b, c]);
    SlugPathOfTwo(b, c);
    assert [a] + [b, c] == [a, b, c];
  }

  /** The three shapes of a term link, by which ancestors resolve. */
  lemma TermLinkShapes(site: Site, taxonomy: string, term: Term)
    ensures match GetTerm(site, taxonomy, term.parent)
      case None => TermSegments(site, taxonomy, term) == [term.slug]
      case Some(p) =>
        match GetTerm(site, taxonomy, p.parent)
        case None => TermSegments(site, taxonomy, term) == [p.slug, term.slug]
        case Some(g) => TermSegments(site, taxonomy, term) == [g.slug, p.slug, term.slug]
  {
    match GetTerm(site, taxonomy, term.parent)
    case None =>
    case Some(p) =>
      match GetTerm(site, taxonomy, p.parent)
      case None =>
        assert AncestorChain(site, taxonomy, p.parent, 1) == [];
      case Some(g) =>
        assert AncestorChain(site, taxonomy, g.parent, 0) == [];
  }

  /** With WordPress slugs the term path splits into its segments and a final empty piece. */
  lemma TermPathSegments(site: Site, taxonomy: string, term: Term)
    requires ValidSlugs(TermSegments(site, taxonomy, term))
    ensures Explode(TermPath(site, taxonomy, term)) == TermSegments(site, taxonomy, term) + [""]
  {
    SlugPathSegments(TermSegments(site, taxonomy, term));
  }

  /** What the term filter returns: the original URL unless the taxonomy is configured and not "default". */
  function FilteredTermLink(site: Site, url: string, term: Term, taxonomy: string): string
  {
    if TaxonomyConfigured(site, taxonomy) && taxonomy != Default then TermLink(site, taxonomy, term) else url
  }

  /** Lines 223-251: the `term_link` filter. */
  method TermCustomLink(site: Site, url: string, term: Term, taxonomy: string) returns (link: string)
    ensures link == FilteredTermLink(site, url, term, taxonomy)
    ensures !TaxonomyConfigured(site, taxonomy) || taxonomy == Default ==> link == url
    ensures TaxonomyConfigured(site, taxonomy) && taxonomy != Default ==>
      link == site.home + "/" + TermPath(site, taxonomy, term)
  {
    var current := MatchTaxonomy(site, taxonomy);
    if current == None || current.value == Default {
      return url;
    }
    link := TermLink(site, current.value, term);
    TermLinkFollowsChain(site, taxonomy, term);
  }

  /* ---------------------------------------------------------------- posts */

  /** The post-type loop of the post filter: the option of the post's own type, if that type is listed (`isset(false)` holds). */
  method PostTypeSetting(site: Site, post: Post) returns (current: Option<Setting>)
    ensures post.postType in site.postTypes ==> current == Some(GetOption(site, post.postType))
    ensures post.postType !in site.postTypes ==> current == None
  {
    current := None;
    for i := 0 to |site.postTypes|
      invariant post.postType in site.postTypes[..i] ==> current == Some(GetOption(site, post.postType))
      invariant post.postType !in site.postTypes[..i] ==> current == None
    {
      var name := GetOption(site, site.postTypes[i]);
      if site.postTypes[i] == post.postType {
        current := Some(name);
      }
      assert site.postTypes[..i + 1] == site.postTypes[..i] + [site.postTypes[i]];
    }
    assert site.postTypes[..|site.postTypes|] == site.postTypes;
  }

  /** Whether the post filter rewrites posts of this setting: everything but the stored "default". */
  predicate Customised(setting: Setting)
  {
    setting != Stored(Default)
  }

  /** The term slugs of a post in the taxonomy its type is set to, ordered by term id. */
  function PostSlugs(site: Site, post: Post, setting: Setting): seq<string>
  {
    PostTermSlugs(site, post.id, TaxonomyKey(setting))
  }

  /** The post's path before `user_trailingslashit`: term slugs then the post name, each followed by '/'. */
  function PostPath(site: Site, post: Post, setting: Setting): string
  {
    SlugPath(PostSlugs(site, post, setting) + [post.name])
  }

  function PostLink(site: Site, post: Post, setting: Setting): string
  {
    HomeUrl(site.home, UserTrailingSlashIt(site.useTrailingSlashes, PostPath(site, post, setting)))
  }

  /** What the post filter returns. */
  function FilteredPostLink(site: Site, postLink: string, post: Post): string
  {
    if post.postType in site.postTypes && Customised(GetOption(site, post.postType))
    then PostLink(site, post, GetOption(site, post.postType))
    else postLink
  }

  /** Lines 259-288: the `post_type_link` filter. */
  method PostCustomLink(site: Site, postLink: string, post: Post) returns (link: string)
    ensures link == FilteredPostLink(site, postLink, post)
    ensures post.postType !in site.postTypes || !Customised(GetOption(site, post.postType)) ==> link == postLink
  {
    var current := PostTypeSetting(site, post);
    if current == None || current.value == Stored(Default) {
      return postLink;
    }
    var terms := PostTermSlugs(site, post.id, TaxonomyKey(current.value));
    var rewrite := "";
    for i := 0 to |terms|
      invariant rewrite == SlugPath(terms[..i])
    {
      assert terms[..i + 1][..i] == terms[..i];
      rewrite := rewrite + terms[i] + "/";
    }
    assert terms[..|terms|] == terms;
    rewrite := rewrite + post.name + "/";
    assert (terms + [post.name])[..|terms|] == terms;
    link := HomeUrl(site.home, UserTrailingSlashIt(site.useTrailingSlashes, rewrite));
  }

  /**
   * With WordPress slugs a customised post link is the home address, '/', and
   * the term slugs and post name separated by '/': with a trailing '/' when the
   * permalink structure uses trailing slashes, without one otherwise. So the
   * path has one segment per term plus one for the post. The path is "0/"
   * exactly for a post named "0" without terms, and then `home_url` drops it.
   */
  lemma PostLinkSegments(site: Site, post: Post, setting: Setting)
    requires ValidSlug(post.name) && ValidSlugs(PostSlugs(site, post, setting))
    ensures var path := PostPath(site, post, setting);
      && |path| > 1
      && UserTrailingSlashIt(site.useTrailingSlashes, path) == (if site.useTrailingSlashes then path else path[..|path| - 1])
      && (path == "0/" <==> PostSlugs(site, post, setting) == [] && post.name == "0")
      && (site.useTrailingSlashes ==> PostLink(site, post, setting) == site.home + "/" + path)
      && (!site.useTrailingSlashes && path != "0/" ==> PostLink(site, post, setting) == site.home + "/" + path[..|path| - 1])
      && (!site.useTrailingSlashes && path == "0/" ==> PostLink(site, post, setting) == site.home)
    ensures Explode(PostPath(site, post, setting)) == PostSlugs(site, post, setting) + [post.name, ""]
  {
    var slugs := PostSlugs(site, post, setting);
    PostPathShape(slugs, post.name);
    LinkOfPath(site.home, site.useTrailingSlashes, PostPath(site, post, setting));
    PostPathExplodes(slugs, post.name);
  }

  /**
   * A post path is longer than one character, starts with a slug character,
   * ends in '/' after a slug character, and is "0/" only for a post named "0" without terms.
   */
  lemma PostPathShape(slugs: seq<string>, name: string)
    requires ValidSlug(name) && ValidSlugs(slugs)
    ensures var path := SlugPath(slugs + [name]);
      && |path| > 1 && path[0] != '/' && path[|path| - 1] == '/'
      && path[|path| - 2] != '/' && path[|path| - 2] != '\\'
      && (path == "0/" <==> slugs == [] && name == "0")
  {
    var path := SlugPath(slugs + [name]);
    var stem := SlugPath(slugs) + name;
    assert (slugs + [name])[..|slugs|] == slugs;
    assert path == stem + "/";
    assert path[|path| - 2] == name[|name| - 1];
    if slugs != [] {
      SlugPathEnds(slugs);
      assert path[0] == SlugPath(slugs)[0];
      assert |path| > 2;
    } else {
      assert path == name + "/";
      assert path[0] == name[0];
    }
  }

  lemma PostPathExplodes(slugs: seq<string>, name: string)
    requires ValidSlug(name) && ValidSlugs(slugs)
    ensures Explode(SlugPath(slugs + [name])) == slugs + [name, ""]
  {
    assert ValidSlugs(slugs + [name]);
    SlugPathSegments(slugs + [name]);
    assert slugs + [name] + [""] == slugs + [name, ""];
  }

  /** `home_url(user_trailingslashit($path))` for a path that starts cleanly and ends in exactly one '/'. */
  lemma LinkOfPath(home: string, useTrailingSlashes: bool, path: string)
    requires |path| > 1 && path[0] != '/' && path[|path| - 1] == '/'
    requires path[|path| - 2] != '/' && path[|path| - 2] != '\\'
    ensures UserTrailingSlashIt(useTrailingSlashes, path) == (if useTrailingSlashes then path else path[..|path| - 1])
    ensures useTrailingSlashes ==> HomeUrl(home, UserTrailingSlashIt(useTrailingSlashes, path)) == home + "/" + path
    ensures !useTrailingSlashes && path != "0/" ==>
      HomeUrl(home, UserTrailingSlashIt(useTrailingSlashes, path)) == home + "/" + path[..|path| - 1]
    ensures !useTrailingSlashes && path == "0/" ==> HomeUrl(home, UserTrailingSlashIt(useTrailingSlashes, path)) == home
  {
    var stem := path[..|path| - 1];
    assert path == stem + "/";
    RTrimOneSlash(stem);
    assert stem == "0" <==> path == "0/";
  }
}
