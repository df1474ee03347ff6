# Wub SEO URLs: hierarchical permalinks and their rewrite rules, in Dafny

Wub SEO URLs is a WordPress plugin. It gives the products and categories of public custom post types SEO-friendly
paths such as `/grandparent/parent/category/` and `/category/product/`. It does this in three places:

- The `term_link` filter (`wub_term_custom_link`) composes a term's link. It starts from the home address and adds at
  most the grandparent and the parent, then the term itself, each followed by `/`. It only does this when the term's
  taxonomy is the one stored for some public custom post type.
- The `post_type_link` filter (`wub_post_custom_link`) composes a post's link. It uses the post's term slugs in term-id
  order, then the post name, each followed by `/`. It leaves the link alone when the post type's stored taxonomy is
  `'default'`.
- The `init` action (`wub_seo_rewrite_rules`) registers the rewrite rules that route those paths back:
  - one rule per post, whose pattern captures the post name;
  - two rules per term, a plain one and a paginated one.

  The helper `slug_array_to_csv` builds the quoted slug list that the post query uses.

The model is split into these modules:

| file | module | what it holds |
|---|---|---|
| `php_strings.dfy` | `PhpStrings` | `implode`, `explode('/')`, `ltrim`/`rtrim` of slashes, with their lemmas |
| `wordpress.dfy` | `WordPress` | the inputs as one `Site` value (see below); `home_url` and `user_trailingslashit`; the slug alphabet |
| `paths.dfy` | `Paths` | `SlugPath`, the string that `$s .= $slug . '/'` builds, and how it splits back into slugs |
| `slug_csv.dfy` | `SlugCsv` | `slug_array_to_csv` as a loop, and a reader for the list it writes |
| `links.dfy` | `Links` | both filters: their post-type scans (loops), the link composition, a reference ancestor walk |
| `rules.dfy` | `Rules` | the rule generator: specification functions, the nested loops as methods, counts and coverage |
| `routing.dfy` | `Routing` | a matcher for the two pattern shapes the generator emits, and the round-trip lemmas |

The `Site` value holds everything the plugin reads from WordPress:

- the home address and whether permalinks end in `/`;
- the list of public custom post types;
- the `wub_post_type_<type>` options;
- `get_term`, as a map per taxonomy from term id to term;
- the results of the two database queries;
- `wp_get_post_terms`, as a map from (post id, taxonomy) to slugs.

An unset option is `Setting.Unset`, which is PHP's `false`. The code treats it exactly as PHP does:

- the term filter's strict `===` never matches it;
- the post filter's `isset` and the generator's `!== 'default'` both let it through;
- used as a taxonomy name it is the empty string.

The central property is the round trip. `Routing.TermLinkIsRouted` covers terms and `Routing.PostLinkIsRouted` covers
posts. Take a link that either filter emits for an entity the generator also walks over. The path after the home address
is matched by a rule that the generator registers for the same entity. For a post, that rule's capture group 1
(`name=$matches[1]`) is the post name. A term's paginated path `…/page/<n>/` is matched by the term's paginated rule.
This holds because both sides build their segments the same way: the ancestor walk is bounded at grandparent, and post
terms are taken in term-id order.

## Model

| member | source | states |
|---|---|---|
| `SlugCsv.SlugArrayToCsv` | wub-seo-urls.php:199-214 | result is `false` (None) exactly when the terms are null or empty; otherwise it is each slug in single quotes, in input order, joined by `", "`, and it reads back as exactly the list of slugs when no slug contains a quote |
| `SlugCsv.ParseQuotedCsv` | wub-seo-urls.php:204-210 | quoting each slug and imploding with `", "` is undone by the list reader: one entry per term, same order, same text |
| `Links.MatchTaxonomy` | wub-seo-urls.php:228-233 | the scan finds the taxonomy exactly when some public custom post type's stored option is that taxonomy (strict comparison, so an unset option never matches) |
| `Links.TermCustomLink` | wub-seo-urls.php:223-251 | returns `$url` unchanged when no post type is configured with the taxonomy or the taxonomy is `'default'`; otherwise returns home + `/` + the term path (at most grandparent and parent, then the term, each followed by `/`) |
| `Links.TermLinkFollowsChain` | wub-seo-urls.php:240-250 | the nested conditionals equal home + `/` + the slug path of a bounded ancestor walk (depth 2, root-most first) followed by the term: 1 to 3 segments, and nothing above the grandparent |
| `Links.TermLinkShapes` | wub-seo-urls.php:240-250 | with no parent the segments are `[slug]`; with a parent but no grandparent they are `[parent, slug]`; with both they are `[grandparent, parent, slug]` |
| `Links.TermPathSegments` | wub-seo-urls.php:244-249 | with WordPress slugs, the term path splits on `/` into exactly its segments and a final empty piece, so it always ends in `/` |
| `Links.PostTypeSetting` | wub-seo-urls.php:265-270 | the scan yields the stored option of the post's own type (unset included, since `isset(false)` holds) when the type is listed, and nothing otherwise |
| `Links.PostCustomLink` | wub-seo-urls.php:259-288 | returns `$post_link` unchanged when the post type is not listed or its option is `'default'`; otherwise returns `home_url(user_trailingslashit(...))` of the term slugs and the post name, each followed by `/`, built from an empty string |
| `Links.PostLinkSegments` | wub-seo-urls.php:276-287 | with WordPress slugs the customised link is home + `/` + the term slugs (term-id order) and the post name, separated by `/`, with a trailing `/` exactly when permalinks use trailing slashes: #terms + 1 segments; the path is `0/` exactly for a post named `0` with no terms, and without trailing slashes `home_url` then returns the bare home address |
| `Links.LinkOfPath` | wub-seo-urls.php:287 | for a path that starts with a non-slash and ends in a single `/`, `user_trailingslashit` keeps it or drops that `/`, and `home_url` puts home + `/` in front, except that `0` becomes the bare home address |
| `Rules.PostPattern` | wub-seo-urls.php:117-122 | the pattern built slug by slug is `^`, each term slug followed by `/`, then `(post_name)/?$` |
| `Rules.EmitPostRules` | wub-seo-urls.php:112-128 | one rule per returned post whose type is the processed type, in query order, with query `index.php?post_type=<type>&name=$matches[1]` and priority `top` |
| `Rules.EmitTermRules` | wub-seo-urls.php:134-163 | the two rules of one term in each of the three parent/grandparent cases |
| `Rules.EmitCategoryRules` | wub-seo-urls.php:131-164 | both rules of every term of the taxonomy, term by term, in order |
| `Rules.SeoRewriteRules` | wub-seo-urls.php:102-166 | the registered rules, in registration order: for each listed post type, in order, its post rules and then its term rules |
| `Rules.TermRulesFollowChain` | wub-seo-urls.php:133-163 | each term gets exactly two rules; both patterns spell the term link's segments joined by `/`; the paginated one inserts `(/page/([0-9]+))` before `/?$` and appends `&paged=$matches[2]` to the plain query; `child_of=<parent slug>` appears exactly when a parent resolves |
| `Rules.PostTypeRulesCount` | wub-seo-urls.php:104-165 | a post type stored as `'default'` gets no rules; any other (an unset one included) gets one rule per returned post of its type plus two per term of its taxonomy |
| `Rules.PostRuleEmitted` | wub-seo-urls.php:112-125 | every returned post of the processed type has its rule among the post rules |
| `Rules.TermRulesEmitted` | wub-seo-urls.php:133-164 | both rules of every term of the taxonomy are among the term rules |
| `Rules.PostTypeRulesEmitted` | wub-seo-urls.php:104-106 | every listed post type's rules are among the registered rules |
| `Routing.TermRulesMatchTermPath` | wub-seo-urls.php:144-162 | a term's plain rule matches the term's link path, and its paginated rule matches that path followed by `page/<n>/` for every page number |
| `Routing.PostRuleMatchesPostPath` | wub-seo-urls.php:117-125 | a post's rule matches the post link's path with and without the trailing `/`, and its capture group 1 is the post name |
| `Routing.TermLinkIsRouted` | wub-seo-urls.php:135-162 | for a term of a configured, non-default taxonomy, the term filter emits home + `/` + path; a registered rule with the term's query matches the path; and a registered paginated rule matches path + `page/<n>/` |
| `Routing.PostLinkIsRouted` | wub-seo-urls.php:112-125 | for a returned post of a listed, non-default post type, the post filter emits home + `/` + path; a registered rule with the type's query matches the path and captures the post name as `$matches[1]` |

## Left out

- The SQL of `custom_get_terms` and `custom_get_posts` (wub-seo-urls.php:70-97, 176-192) is not modelled. Their results are
  inputs (`Site.categories`, `Site.posts`). So a consequence of that SQL is not modelled either: when a taxonomy has no
  terms, `slug_array_to_csv` returns `false`, which makes `NOT IN ()` and so an empty post list.
- `get_option`, `get_post_types`, `get_term`, `wp_get_post_terms` and `get_post` are inputs. The post filter receives the
  post record itself, so a post id that `get_post` cannot find is not modelled. The lookups that WordPress makes with
  the taxonomy `false` use the key `""`.
- `home_url` and `user_trailingslashit` are modelled by their string effect: the leading-slash trim, the empty and `"0"`
  path cases, and trailing-slash handling. The filters they run and URL schemes are left out.
- WordPress's rewrite engine is not implemented. `Routing.PlainMatches` and `Routing.PagedMatches` give the meaning of
  only the two pattern shapes the generator emits, for bodies made of literal text and grouping parentheses.
- `add_rewrite_rule` stores rules in a table keyed by pattern, so a later rule with the same pattern replaces an earlier
  one. The model keeps the sequence of calls, not that table.
- PHP's loose `==` at line 114 is modelled as string equality. Post type names are not numeric strings.
- Iterating a `WP_Error` object as if it were the term list is not modelled. That happens when `wp_get_post_terms` is
  asked for an unregistered taxonomy. The model uses whatever slug list the input gives for that key, empty when absent.
- The round-trip lemmas are stated for WordPress slugs: non-empty, made of lower-case letters, digits, `-`, `_` and `%`.
  Those are the slugs that `sanitize_title` produces.
- `Routing.PostLinkIsRouted` leaves out one input: a post named `0` with no terms, on a site without trailing slashes.
  `home_url("0")` returns the bare home address for it, as `Links.PostLinkSegments` states.
- `flush_rewrite_rules`, the activation and deactivation hooks and `wub_flush_permalinks_on_save` are global side effects
  and are left out. So are the AJAX handlers and the licence client (wub-seo-urls.php:294-407).
