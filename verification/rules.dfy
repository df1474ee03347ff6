/**
 * `wub_seo_rewrite_rules`, run on `init`: the rewrite rules registered with
 * `add_rewrite_rule`, in the order they are registered.
 */
module Rules {
  import opened PhpStrings
  import opened WordPress
  import opened Paths
  import Links

  /** One `add_rewrite_rule($regex, $query, $after)` call. */
  datatype Rule = Rule(regex: string, query: string, after: string)

  const Top: string := "top"
  /** What a paginated term rule puts between the term slug and `/?$`. */
  const PagePattern: string := "(/page/([0-9]+))"
  /** What a paginated term rule adds to its query. */
  const PageQuery: string := "&paged=$matches[2]"

  /* ------------------------------------------------------- specification */

  /** The rule for one post: its term slugs, then its name as capture group 1, then an optional '/'. */
  function PostRule(postType: string, post: Post, slugs: seq<string>): Rule
  {
    Rule("^" + SlugPath(slugs) + "(" + post.name + ")" + "/?$",
         "index.php?post_type=" + postType + "&name=$matches[1]",
         Top)
  }

  /** The rules of the post loop, for the posts the query returned. */
  function PostRules(site: Site, postType: string, taxonomy: string, posts: seq<Post>): seq<Rule>
    decreases |posts|
  {
    if posts == [] then []
    else
      var post := posts[|posts| - 1];
      PostRules(site, postType, taxonomy, posts[..|posts| - 1]) +
      (if post.postType == postType then [PostRule(postType, post, PostTermSlugs(site, post.id, taxonomy))] else [])
  }

  /** The two rules of one term, by which of its parent and grandparent resolve. */
  function TermRules(site: Site, taxonomy: string, category: Term): seq<Rule>
  {
    var query := "index.php?" + taxonomy + "=" + category.slug;
    match GetTerm(site, taxonomy, category.parent)
    case None =>
      [ Rule("^" + category.slug + "/?$", query, Top),
        Rule("^" + category.slug + PagePattern + "/?$", query + PageQuery, Top) ]
    case Some(parent) =>
      var childQuery := query + "&child_of=" + parent.slug;
      match GetTerm(site, taxonomy, parent.parent)
      case None =>
        [ Rule("^" + parent.slug + "/" + category.slug + "/?$", childQuery, Top),
          Rule("^" + parent.slug + "/" + category.slug + PagePattern + "/?$", childQuery + PageQuery, Top) ]
      case Some(grandParent) =>
        [ Rule("^" + grandParent.slug + "/" + parent.slug + "/" + category.slug + "/?$", childQuery, Top),
          Rule("^" + grandParent.slug + "/" + parent.slug + "/" + category.slug + PagePattern + "/?$", childQuery + PageQuery, Top) ]
  }

  /** The rules of the term loop. */
  function CategoryRules(site: Site, taxonomy: string, categories: seq<Term>): seq<Rule>
    decreases |categories|
  {
    if categories == [] then []
    else
      CategoryRules(site, taxonomy, categories[..|categories| - 1]) +
      TermRules(site, taxonomy, categories[|categories| - 1])
  }

  /** Everything one post type contributes: nothing for "default", otherwise its post rules, then its term rules. */
  function PostTypeRules(site: Site, postType: string): seq<Rule>
  {
    var setting := GetOption(site, postType);
    if setting == Stored(Default) then []
    else
      var taxonomy := TaxonomyKey(setting);
      PostRules(site, postType, taxonomy, PostsOf(site, postType)) +
      CategoryRules(site, taxonomy, TermsOf(site, taxonomy))
  }

  function AllRules(site: Site, postTypes: seq<string>): seq<Rule>
    decreases |postTypes|
  {
    if postTypes == [] then []
    else AllRules(site, postTypes[..|postTypes| - 1]) + PostTypeRules(site, postTypes[|postTypes| - 1])
  }

  /* ------------------------------------------------------------ the hook */

  /** Lines 117-122: the pattern text for one post, built slug by slug. */
  method PostPattern(terms: seq<string>, postName: string) returns (rewrite: string)
    ensures rewrite == "^" + SlugPath(terms) + "(" + postName + ")" + "/?$"
  {
    rewrite := "^";
    for k := 0 to |terms|
      invariant rewrite == "^" + SlugPath(terms[..k])
    {
      assert terms[..k + 1][..k] == terms[..k];
      rewrite := rewrite + terms[k] + "/";
    }
    assert terms[..|terms|] == terms;
    rewrite := rewrite + "(" + postName + ")" + "/?$";
  }

  /** Lines 112-128: one rule per returned post of the processed type. */
  method EmitPostRules(site: Site, postType: string, taxonomy: string, posts: seq<Post>) returns (rules: seq<Rule>)
    ensures rules == PostRules(site, postType, taxonomy, posts)
  {
    rules := [];
    for j := 0 to |posts|
      invariant rules == PostRules(site, postType, taxonomy, posts[..j])
    {
      assert posts[..j + 1][..j] == posts[..j];
      var post := posts[j];
      if post.postType == postType {
        var terms := PostTermSlugs(site, post.id, taxonomy);
        var rewrite := PostPattern(terms, post.name);
        rules := rules + [Rule(rewrite, "index.php?post_type=" + postType + "&name=$matches[1]", Top)];
      }
    }
    assert posts[..|posts|] == posts;
  }

  /** Lines 134-163: the plain and the paginated rule of one term. */
  method EmitTermRules(site: Site, taxonomy: string, category: Term) returns (rules: seq<Rule>)
    ensures rules == TermRules(site, taxonomy, category)
  {
    var query := "index.php?" + taxonomy + "=" + category.slug;
    var parent := GetTerm(site, taxonomy, category.parent);
    if parent.Some? {
      var grandParent := GetTerm(site, taxonomy, parent.value.parent);
      var childQuery := query + "&child_of=" + parent.value.slug;
      if grandParent.Some? {
        var stem := "^" + grandParent.value.slug + "/" + parent.value.slug + "/" + category.slug;
        rules := [Rule(stem + "/?$", childQuery, Top)];
        rules := rules + [Rule(stem + PagePattern + "/?$", childQuery + PageQuery, Top)];
      } else {
        var stem := "^" + parent.value.slug + "/" + category.slug;
        rules := [Rule(stem + "/?$", childQuery, Top)];
        rules := rules + [Rule(stem + PagePattern + "/?$", childQuery + PageQuery, Top)];
      }
    } else {
      rules := [Rule("^" + category.slug + "/?$", query, Top)];
      rules := rules + [Rule("^" + category.slug + PagePattern + "/?$", query + PageQuery, Top)];
    }
  }

  /** Lines 131-164: both rules of every term of the taxonomy, term by term. */
  method EmitCategoryRules(site: Site, taxonomy: string, categories: seq<Term>) returns (rules: seq<Rule>)
    ensures rules == CategoryRules(site, taxonomy, categories)
  {
    rules := [];
    for j := 0 to |categories|
      invariant rules == CategoryRules(site, taxonomy, categories[..j])
    {
      assert categories[..j + 1][..j] == categories[..j];
      var termRules := EmitTermRules(site, taxonomy, categories[j]);
      rules := rules + termRules;
    }
    assert categories[..|categories|] == categories;
  }

  /** Lines 102-166: every rule `wub_seo_rewrite_rules` registers, in order. */
  method SeoRewriteRules(site: Site) returns (rules: seq<Rule>)
    ensures rules == AllRules(site, site.postTypes)
  {
    rules := [];
    for i := 0 to |site.postTypes|
      invariant rules == AllRules(site, site.postTypes[..i])
    {
      var postType := site.postTypes[i];
      assert site.postTypes[..i + 1][..i] == site.postTypes[..i];
      assert AllRules(site, site.postTypes[..i + 1]) == AllRules(site, site.postTypes[..i]) + PostTypeRules(site, postType);
      var setting := GetOption(site, postType);
      var added: seq<Rule> := [];
      if setting != Stored(Default) {
        var taxonomy := TaxonomyKey(setting);
        var postRules := EmitPostRules(site, postType, taxonomy, PostsOf(site, postType));
        var termRules := EmitCategoryRules(site, taxonomy, TermsOf(site, taxonomy));
        added := postRules + termRules;
      }
      assert added == PostTypeRules(site, postType);
      rules := rules + added;
    }
    assert site.postTypes[..|site.postTypes|] == site.postTypes;
  }

  /* ------------------------------------------------------------- properties */

  /** The query of a term's plain rule: the term, and `child_of` its parent only when it has one. */
  function TermQuery(site: Site, taxonomy: string, category: Term): string
  {
    "index.php?" + taxonomy + "=" + category.slug +
    match GetTerm(site, taxonomy, category.parent)
    case None => ""
    case Some(parent) => "&child_of=" + parent.slug
  }

  /**
   * Each term gets exactly two rules. Both patterns spell the same segments
   * the term link uses (at most grandparent and parent, then the term) joined
   * by '/'; the second is the first with the page group inserted before `/?$`,
   * and its query is the first's with `&paged=$matches[2]` appended.
   */
  lemma {:induction false} TermRulesFollowChain(site: Site, taxonomy: string, category: Term)
    ensures var rules := TermRules(site, taxonomy, category);
      var stem := "^" + Implode("/", Links.TermSegments(site, taxonomy, category));
      && |rules| == 2
      && rules[0] == Rule(stem + "/?$", TermQuery(site, taxonomy, category), Top)
      && rules[1] == Rule(stem + PagePattern + "/?$", TermQuery(site, taxonomy, category) + PageQuery, Top)
  {
    Links.TermLinkShapes(site, taxonomy, category);
    var query := "index.php?" + taxonomy + "=" + category.slug;
    match GetTerm(site, taxonomy, category.parent)
    case None =>
      StemOfOne(category.slug);
      assert TermQuery(site, taxonomy, category) == query;
    case Some(p) =>
      ChildQuery(query, p.slug);
      match GetTerm(site, taxonomy, p.parent)
      case None =>
        StemOfTwo(p.slug, category.slug);
      case Some(g) =>
        StemOfThree(g.slug, p.slug, category.slug);
  }

  lemma StemOfOne(a: string)
    ensures "^" + Implode("/", [a]) == "^" + a
  {
  }

  lemma StemOfTwo(a: string, b: string)
    ensures "^" + Implode("/", [a, b]) == "^" + a + "/" + b
  {
    assert [a, b][1..] == [b];
  }

  lemma StemOfThree(a: string, b: string, c: string)
    ensures "^" + Implode("/", [a, b, c]) == "^" + a + "/" + b + "/" + c
  {
    assert [a, b, c][1..] == [b, c];
    StemOfTwo(b, c);
  }

  lemma ChildQuery(query: string, parent: string)
    ensures query + ("&child_of=" + parent) == query + "&child_of=" + parent
  {
  }

  /** How many posts of the list have the given type. */
  function CountOfType(posts: seq<Post>, postType: string): nat
    decreases |posts|
  {
    if posts == [] then 0
    else CountOfType(posts[..|posts| - 1], postType) + (if posts[|posts| - 1].postType == postType then 1 else 0)
  }

  lemma {:induction false} PostRulesCount(site: Site, postType: string, taxonomy: string, posts: seq<Post>)
    ensures |PostRules(site, postType, taxonomy, posts)| == CountOfType(posts, postType)
    decreases |posts|
  {
    if posts != [] {
      PostRulesCount(site, postType, taxonomy, posts[..|posts| - 1]);
    }
  }

  lemma {:induction false} CategoryRulesCount(site: Site, taxonomy: string, categories: seq<Term>)
    ensures |CategoryRules(site, taxonomy, categories)| == 2 * |categories|
    decreases |categories|
  {
    if categories != [] {
      CategoryRulesCount(site, taxonomy, categories[..|categories| - 1]);
      TermRulesFollowChain(site, taxonomy, categories[|categories| - 1]);
    }
  }

  /**
   * A post type stored as "default" gets no rules at all; any other one (an
   * unset option included) gets one rule per post of its type and two per term.
   */
  lemma PostTypeRulesCount(site: Site, postType: string)
    ensures GetOption(site, postType) == Stored(Default) ==> PostTypeRules(site, postType) == []
    ensures GetOption(site, postType) != Stored(Default) ==>
      |PostTypeRules(site, postType)| ==
        CountOfType(PostsOf(site, postType), postType) + 2 * |TermsOf(site, TaxonomyKey(GetOption(site, postType)))|
  {
    var setting := GetOption(site, postType);
    if setting != Stored(Default) {
      PostRulesCount(site, postType, TaxonomyKey(setting), PostsOf(site, postType));
      CategoryRulesCount(site, TaxonomyKey(setting), TermsOf(site, TaxonomyKey(setting)));
    }
  }

  /** Every post of the right type in the query result gets its rule. */
  lemma {:induction false} PostRuleEmitted(site: Site, postType: string, taxonomy: string, posts: seq<Post>, k: nat)
    requires k < |posts| && posts[k].postType == postType
    ensures PostRule(postType, posts[k], PostTermSlugs(site, posts[k].id, taxonomy)) in PostRules(site, postType, taxonomy, posts)
    decreases |posts|
  {
    if k < |posts| - 1 {
      PostRuleEmitted(site, postType, taxonomy, posts[..|posts| - 1], k);
    }
  }

  /** Every term in the term list gets both of its rules. */
  lemma {:induction false} TermRulesEmitted(site: Site, taxonomy: string, categories: seq<Term>, k: nat)
    requires k < |categories|
    ensures forall r :: r in TermRules(site, taxonomy, categories[k]) ==> r in CategoryRules(site, taxonomy, categories)
    decreases |categories|
  {
    if k < |categories| - 1 {
      TermRulesEmitted(site, taxonomy, categories[..|categories| - 1], k);
    }
  }

  /** Every listed post type's rules are registered. */
  lemma {:induction false} PostTypeRulesEmitted(site: Site, postTypes: seq<string>, k: nat)
    requires k < |postTypes|
    ensures forall r :: r in PostTypeRules(site, postTypes[k]) ==> r in AllRules(site, postTypes)
    decreases |postTypes|
  {
    if k < |postTypes| - 1 {
      PostTypeRulesEmitted(site, postTypes[..|postTypes| - 1], k);
    }
  }
}
