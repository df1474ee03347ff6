/**
 * What the plugin reads from WordPress, as one immutable value per request:
 * the public custom post types, the per-post-type taxonomy option, the terms
 * and posts the database queries return, and the site's home address.
 */
module WordPress {
  import opened PhpStrings

  datatype Option<T> = None | Some(value: T)

  /** A taxonomy term: its id, its URL slug and the id of its parent (0 for none). */
  datatype Term = Term(id: nat, slug: string, parent: nat)

  /** A post row: its id, its `post_name` slug and its post type. */
  datatype Post = Post(id: nat, name: string, postType: string)

  /**
   * The value of `get_option('wub_post_type_<type>')`: `false` when the option
   * was never saved, otherwise the stored taxonomy name (or `'default'`).
   */
  datatype Setting = Unset | Stored(name: string)

  /** The option value meaning "leave this post type's URLs alone". */
  const Default: string := "default"

  datatype Site = Site(
    home: string,                               // get_home_url()
    useTrailingSlashes: bool,                   // $wp_rewrite->use_trailing_slashes
    postTypes: seq<string>,                     // get_post_types(public, not built-in)
    options: map<string, string>,               // wub_post_type_<type> options that are set
    termById: map<string, map<nat, Term>>,      // get_term(id, taxonomy), per taxonomy
    categories: map<string, seq<Term>>,         // custom_get_terms(taxonomy)
    posts: map<string, seq<Post>>,              // custom_get_posts(type, taxonomy, terms)
    postTerms: map<(nat, string), seq<string>>  // wp_get_post_terms(id, taxonomy), slugs by term_id
  )

  function GetOption(site: Site, postType: string): Setting
  {
    if postType in site.options then Stored(site.options[postType]) else Unset
  }

  /** The taxonomy name a setting is used as: PHP turns `false` into `''`. */
  function TaxonomyKey(setting: Setting): string
  {
    match setting
    case Unset => ""
    case Stored(name) => name
  }

  /** `get_term($id, $taxonomy)`; `None` where WordPress returns no term object. */
  function GetTerm(site: Site, taxonomy: string, id: nat): Option<Term>
  {
    if taxonomy in site.termById && id in site.termById[taxonomy] then Some(site.termById[taxonomy][id])
    else None
  }

  function TermsOf(site: Site, taxonomy: string): seq<Term>
  {
    if taxonomy in site.categories then site.categories[taxonomy] else []
  }

  function PostsOf(site: Site, postType: string): seq<Post>
  {
    if postType in site.posts then site.posts[postType] else []
  }

  function PostTermSlugs(site: Site, postId: nat, taxonomy: string): seq<string>
  {
    if (postId, taxonomy) in site.postTerms then site.postTerms[(postId, taxonomy)] else []
  }

  /**
   * `user_trailingslashit($s)`: with trailing slashes on, `trailingslashit`
   * (strip trailing slashes and backslashes, add one '/'); otherwise `untrailingslashit`.
   */
  function UserTrailingSlashIt(useTrailingSlashes: bool, s: string): string
  {
    if useTrailingSlashes then RTrimSlashes(s) + "/" else RTrimSlashes(s)
  }

  /** `home_url($path)`: a non-empty path other than "0" is appended after '/' without its leading slashes. */
  function HomeUrl(home: string, path: string): (url: string)
    ensures path != "" && path != "0" && path[0] != '/' ==> url == home + "/" + path
    ensures path == "" ==> url == home
  {
    if path == "" || path == "0" then home else home + "/" + LTrimSlashes(path)
  }

  /** The characters `sanitize_title` leaves in a slug. */
  predicate SlugChar(c: char)
  {
    ('a' <= c <= 'z') || ('0' <= c <= '9') || c == '-' || c == '_' || c == '%'
  }

  /** A slug as WordPress stores it: non-empty, made of slug characters only. */
  predicate ValidSlug(s: string)
  {
    |s| > 0 && forall i :: 0 <= i < |s| ==> SlugChar(s[i])
  }

  predicate ValidSlugs(xs: seq<string>)
  {
    forall i :: 0 <= i < |xs| ==> ValidSlug(xs[i])
  }
}
