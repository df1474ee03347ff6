/**
 * Agreement between the links the filters emit and the rules the generator
 * registers. A pattern is read with the meaning a regular expression gives it,
 * for the two shapes the generator produces: `^B/?$` and
 * `^B(/page/([0-9]+))/?$`, where B is literal text with grouping parentheses.
 */
module Routing {
  import opened PhpStrings
  import opened WordPress
  import opened Paths
  import opened Links
  import opened Rules

  /** The tail of a paginated pattern: "/page/", a number, an optional '/'. */
  const PagedTail: string := "(/page/([0-9]+))/?$"

  /** Characters a regular expression gives a meaning of their own (grouping parentheses apart). */
  predicate RegexMeta(c: char)
  {
    c in ".*+?[]{}|\\^$#"
  }

  /** Text that a regular expression matches only literally. */
  predicate IsLiteral(s: string)
  {
    forall i :: 0 <= i < |s| ==> !RegexMeta(s[i]) && s[i] != '(' && s[i] != ')'
  }

  /** The text with its grouping parentheses removed: what the group-and-literal text B matches. */
  function Ungroup(s: string): string
    decreases |s|
  {
    if s == [] then [] else (if s[0] == '(' || s[0] == ')' then [] else [s[0]]) + Ungroup(s[1..])
  }

  /** `^B/?$` matches B's text, with or without one trailing '/'. */
  predicate PlainMatches(pattern: string, path: string)
  {
    && |pattern| >= 4 && pattern[0] == '^' && pattern[|pattern| - 3..] == "/?$"
    && var body := Ungroup(pattern[1..|pattern| - 3]);
       IsLiteral(body) && (path == body || path == body + "/")
  }

  predicate Digits(s: string)
  {
    |s| > 0 && forall i :: 0 <= i < |s| ==> '0' <= s[i] <= '9'
  }

  /** What `([0-9]+)/?$` accepts: a page number, with or without one trailing '/'. */
  predicate PageNumber(s: string)
  {
    Digits(s) || (|s| > 1 && s[|s| - 1] == '/' && Digits(s[..|s| - 1]))
  }

  /** `^B(/page/([0-9]+))/?$` matches B's text, "/page/" and a page number. */
  predicate PagedMatches(pattern: string, path: string)
  {
    && |pattern| >= 1 + |PagedTail| && pattern[0] == '^' && pattern[|pattern| - |PagedTail|..] == PagedTail
    && var body := Ungroup(pattern[1..|pattern| - |PagedTail|]);
       && IsLiteral(body) && |path| > |body| + 6 && path[..|body| + 6] == body + "/page/"
       && PageNumber(path[|body| + 6..])
  }

  /** The text of capture group 1 (`$matches[1]`): from the first '(' to the next ')'. */
  function FirstGroup(pattern: string): Option<string>
    decreases |pattern|
  {
    if pattern == [] then None
    else if pattern[0] == '(' then GroupText(pattern[1..])
    else FirstGroup(pattern[1..])
  }

  /** The text before the first ')', if there is one. */
  function GroupText(s: string): Option<string>
    decreases |s|
  {
    if s == [] then None
    else if s[0] == ')' then Some([])
    else match GroupText(s[1..])
      case None => None
      case Some(t) => Some([s[0]] + t)
  }

  /* ------------------------------------------------------ text lemmas */

  /** Text made of slug characters and '/'. */
  predicate PathText(s: string)
  {
    forall i :: 0 <= i < |s| ==> SlugChar(s[i]) || s[i] == '/'
  }

  lemma PathTextConcat(a: string, b: string)
    requires PathText(a) && PathText(b)
    ensures PathText(a + b)
  {
    forall i | 0 <= i < |a + b|
      ensures SlugChar((a + b)[i]) || (a + b)[i] == '/'
    {
      if i >= |a| {
        assert (a + b)[i] == b[i - |a|];
      }
    }
  }

  lemma {:induction false} PathTextImplode(xs: seq<string>)
    requires ValidSlugs(xs)
    ensures PathText(Implode("/", xs))
    decreases |xs|
  {
    if |xs| > 1 {
      PathTextImplode(xs[1..]);
      PathTextConcat(xs[0], "/");
      PathTextConcat(xs[0] + "/", Implode("/", xs[1..]));
    }
  }

  lemma {:induction false} UngroupConcat(a: string, b: string)
    ensures Ungroup(a + b) == Ungroup(a) + Ungroup(b)
    decreases |a|
  {
    if a != [] {
      assert (a + b)[1..] == a[1..] + b;
      UngroupConcat(a[1..], b);
    } else {
      assert a + b == b;
    }
  }

  /** Path text is literal and has no groups to remove. */
  lemma {:induction false} PathTextIsLiteral(s: string)
    requires PathText(s)
    ensures IsLiteral(s) && Ungroup(s) == s
    decreases |s|
  {
    if s != [] {
      PathTextIsLiteral(s[1..]);
      assert [s[0]] + s[1..] == s;
    }
  }

  lemma {:induction false} GroupTextOf(b: string, c: string)
    requires forall i :: 0 <= i < |b| ==> b[i] != ')'
    ensures GroupText(b + ")" + c) == Some(b)
    decreases |b|
  {
    if b != [] {
      assert (b + ")" + c)[1..] == b[1..] + ")" + c;
      GroupTextOf(b[1..], c);
      assert [b[0]] + b[1..] == b;
    }
  }

  lemma {:induction false} FirstGroupOf(a: string, b: string, c: string)
    requires forall i :: 0 <= i < |a| ==> a[i] != '('
    requires forall i :: 0 <= i < |b| ==> b[i] != ')'
    ensures FirstGroup(a + "(" + b + ")" + c) == Some(b)
    decreases |a|
  {
    if a == [] {
      assert a + "(" + b + ")" + c == "(" + (b + ")" + c);
      GroupTextOf(b, c);
    } else {
      assert (a + "(" + b + ")" + c)[1..] == a[1..] + "(" + b + ")" + c;
      FirstGroupOf(a[1..], b, c);
    }
  }

  /* ------------------------------------------------------ agreement */

  /**
   * A term's plain rule matches the path of the term's link, and its
   * paginated rule matches that path followed by "page/<n>/".
   */
  lemma TermRulesMatchTermPath(site: Site, taxonomy: string, term: Term)
    requires ValidSlugs(TermSegments(site, taxonomy, term))
    ensures PlainMatches(TermRules(site, taxonomy, term)[0].regex, TermPath(site, taxonomy, term))
    ensures forall n :: Digits(n) ==>
      PagedMatches(TermRules(site, taxonomy, term)[1].regex, TermPath(site, taxonomy, term) + "page/" + n + "/")
  {
    var segs := TermSegments(site, taxonomy, term);
    var body := Implode("/", segs);
    TermRulesFollowChain(site, taxonomy, term);
    SlugPathIsImplode(segs);
    PathTextImplode(segs);
    PlainRuleMatches(body);
    forall n | Digits(n)
      ensures PagedMatches(TermRules(site, taxonomy, term)[1].regex, TermPath(site, taxonomy, term) + "page/" + n + "/")
    {
      PagedRuleMatches(body, n);
    }
  }

  /** `^B/?$` with a literal path text B matches B followed by '/'. */
  lemma PlainRuleMatches(body: string)
    requires PathText(body)
    ensures PlainMatches("^" + body + "/?$", body + "/")
  {
    PathTextIsLiteral(body);
    var plain := "^" + body + "/?$";
    assert plain[1..|plain| - 3] == body;
    assert plain[|plain| - 3..] == "/?$";
  }

  /** `^B(/page/([0-9]+))/?$` with a literal path text B matches B, "/page/", a number and '/'. */
  lemma PagedRuleMatches(body: string, n: string)
    requires PathText(body) && Digits(n)
    ensures PagedMatches("^" + body + PagePattern + "/?$", body + "/" + "page/" + n + "/")
  {
    PathTextIsLiteral(body);
    var paged := "^" + body + PagePattern + "/?$";
    assert paged == "^" + body + PagedTail;
    assert paged[1..|paged| - |PagedTail|] == body;
    assert paged[|paged| - |PagedTail|..] == PagedTail;
    var path := body + "/" + "page/" + n + "/";
    assert path == body + "/page/" + (n + "/");
    assert path[..|body| + 6] == body + "/page/";
    assert path[|body| + 6..] == n + "/";
    assert (n + "/")[..|n|] == n;
  }

  lemma SlugPathText(xs: seq<string>)
    requires ValidSlugs(xs)
    ensures PathText(SlugPath(xs))
  {
    if xs != [] {
      SlugPathIsImplode(xs);
      PathTextImplode(xs);
      PathTextConcat(Implode("/", xs), "/");
    }
  }

  /** A post pattern's body loses only the parentheses around the post name. */
  lemma PostBodyUngrouped(prefix: string, name: string)
    requires PathText(prefix) && PathText(name)
    ensures Ungroup(prefix + "(" + name + ")") == prefix + name
    ensures IsLiteral(prefix + name)
  {
    assert Ungroup("(") == [] by { assert "("[1..] == []; }
    assert Ungroup(")") == [] by { assert ")"[1..] == []; }
    PathTextIsLiteral(prefix);
    PathTextIsLiteral(name);
    UngroupConcat(prefix, "(");
    assert Ungroup(prefix + "(") == prefix;
    UngroupConcat(prefix + "(", name);
    assert Ungroup(prefix + "(" + name) == prefix + name;
    UngroupConcat(prefix + "(" + name, ")");
    PathTextConcat(prefix, name);
    PathTextIsLiteral(prefix + name);
  }

  /**
   * A post's rule matches the path of the post's link with or without its
   * trailing '/', and its capture group 1 (`name=$matches[1]`) is the post name.
   */
  lemma PostRuleMatchesPostPath(site: Site, post: Post, setting: Setting)
    requires ValidSlug(post.name) && ValidSlugs(PostSlugs(site, post, setting))
    ensures var rule := PostRule(post.postType, post, PostSlugs(site, post, setting));
      var path := PostPath(site, post, setting);
      && |path| > 0
      && PlainMatches(rule.regex, path)
      && PlainMatches(rule.regex, path[..|path| - 1])
      && FirstGroup(rule.regex) == Some(post.name)
  {
    var slugs := PostSlugs(site, post, setting);
    var regex := PostRule(post.postType, post, slugs).regex;
    var prefix := SlugPath(slugs);
    var path := PostPath(site, post, setting);
    assert (slugs + [post.name])[..|slugs|] == slugs;
    assert path == prefix + post.name + "/";
    assert path[..|path| - 1] == prefix + post.name;
    SlugPathText(slugs);
    PostBodyUngrouped(prefix, post.name);
    var body := prefix + "(" + post.name + ")";
    assert regex == "^" + body + "/?$";
    assert regex[1..|regex| - 3] == body;
    assert regex == ("^" + prefix) + "(" + post.name + ")" + "/?$";
    assert forall i :: 0 <= i < |"^" + prefix| ==> ("^" + prefix)[i] != '(' by {
      forall i | 0 <= i < |"^" + prefix| ensures ("^" + prefix)[i] != '(' {
        if i > 0 {
          assert ("^" + prefix)[i] == prefix[i - 1];
        }
      }
    }
    FirstGroupOf("^" + prefix, post.name, "/?$");
  }

  /**
   * Round trip for terms: when the term's taxonomy is configured for some post
   * type (and is not "default") and the term is one of the taxonomy's terms,
   * the term filter emits the home address followed by the term's path, a
   * registered rule for that term matches the path, and a registered
   * paginated rule matches the path followed by "page/<n>/".
   */
  lemma TermLinkIsRouted(site: Site, url: string, term: Term, taxonomy: string)
    requires TaxonomyConfigured(site, taxonomy) && taxonomy != Default
    requires term in TermsOf(site, taxonomy)
    requires ValidSlugs(TermSegments(site, taxonomy, term))
    ensures FilteredTermLink(site, url, term, taxonomy) == site.home + "/" + TermPath(site, taxonomy, term)
    ensures exists r :: (
      && r in AllRules(site, site.postTypes)
      && PlainMatches(r.regex, TermPath(site, taxonomy, term))
      && r.query == TermQuery(site, taxonomy, term))
    ensures forall n :: Digits(n) ==> exists r :: (
      && r in AllRules(site, site.postTypes)
      && PagedMatches(r.regex, TermPath(site, taxonomy, term) + "page/" + n + "/")
      && r.query == TermQuery(site, taxonomy, term) + PageQuery)
  {
    TermLinkFollowsChain(site, taxonomy, term);
    var i :| 0 <= i < |site.postTypes| && GetOption(site, site.postTypes[i]) == Stored(taxonomy);
    var k :| 0 <= k < |TermsOf(site, taxonomy)| && TermsOf(site, taxonomy)[k] == term;
    TermRulesEmitted(site, taxonomy, TermsOf(site, taxonomy), k);
    PostTypeRulesEmitted(site, site.postTypes, i);
    var rules := TermRules(site, taxonomy, term);
    TermRulesFollowChain(site, taxonomy, term);
    assert rules[0] in rules && rules[1] in rules;
    assert rules[0] in AllRules(site, site.postTypes);
    assert rules[1] in AllRules(site, site.postTypes);
    TermRulesMatchTermPath(site, taxonomy, term);
  }

  /** The part of a customised post link after the home address and '/'. */
  function PostRequestPath(site: Site, post: Post, setting: Setting): string
  {
    UserTrailingSlashIt(site.useTrailingSlashes, PostPath(site, post, setting))
  }

  /**
   * Round trip for posts: for a post the post query returned for a listed,
   * customised post type, the post filter emits the home address followed by
   * the post's path, and a registered rule matches that path and captures the
   * post name as `$matches[1]`, with the query for that post type.
   */
  lemma PostLinkIsRouted(site: Site, postLink: string, post: Post)
    requires post.postType in site.postTypes && Customised(GetOption(site, post.postType))
    requires post in PostsOf(site, post.postType)
    requires ValidSlug(post.name) && ValidSlugs(PostSlugs(site, post, GetOption(site, post.postType)))
    requires site.useTrailingSlashes || PostSlugs(site, post, GetOption(site, post.postType)) != [] || post.name != "0"
    ensures FilteredPostLink(site, postLink, post) ==
      site.home + "/" + PostRequestPath(site, post, GetOption(site, post.postType))
    ensures exists r :: (
      && r in AllRules(site, site.postTypes)
      && PlainMatches(r.regex, PostRequestPath(site, post, GetOption(site, post.postType)))
      && FirstGroup(r.regex) == Some(post.name)
      && r.query == "index.php?post_type=" + post.postType + "&name=$matches[1]")
  {
    var setting := GetOption(site, post.postType);
    var slugs := PostSlugs(site, post, setting);
    PostLinkSegments(site, post, setting);
    PostRuleMatchesPostPath(site, post, setting);
    var i :| 0 <= i < |site.postTypes| && site.postTypes[i] == post.postType;
    var k :| 0 <= k < |PostsOf(site, post.postType)| && PostsOf(site, post.postType)[k] == post;
    PostRuleEmitted(site, post.postType, TaxonomyKey(setting), PostsOf(site, post.postType), k);
    PostTypeRulesEmitted(site, site.postTypes, i);
    var rule := PostRule(post.postType, post, slugs);
    assert rule in AllRules(site, site.postTypes);
  }
}
