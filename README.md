# Brand normalisers and the rule-based internal-link inserter

This project models three data-processing scripts of a job board's content pipeline.

**Brand.dev normaliser** (`fetch_brand_data_branddev.py`). Modelled in `brightness.dfy` and `branddev.dfy`. It turns one Brand.dev `brand` object into the site's brand record:
- Each colour gets a perceived brightness (0.299 R + 0.587 G + 0.114 B, truncated) and a role guessed from its name.
- The colours are sorted by brightness, with a stable sort. The darkest is then relabelled "dark", the brightest "light", and the second darkest "accent".
- Logos are keyed `type_mode`, with "has_opaque_background" read as "dark".
- The first backdrop becomes the banner.
- Industries are taken from the `eic` list.
- A completeness score counts six factors.

**Brandfetch normaliser** (`fetch_brand_data.py`). Modelled in `brandfetch.dfy`:
- Colours are copied.
- The last font of type "title" and the last of type "body" are picked.
- Each logo variant gets one source: the first SVG, else the last PNG.
- Industry names are listed.

**Rule-based link inserter** (`add_internal_links_simple.py`). Modelled in `phrase_match.dfy` and `internal_links.dfy`. It inserts at most three Markdown links into a job description:
- at most one link per keyword cluster (CFO, CMO, CTO, COO, general);
- clusters are tried in an order led by the role category's cluster;
- within a cluster, the first pattern with a match links its leftmost occurrence;
- a text that already holds a `](/fractional-jobs` link is left alone.

`phrase_match.dfy` gives the exact meaning of the one family of regular expressions the cluster table uses:
- the forms are `\b(stem)\b`, `\b(stem)s?\b` and `\b(stem)(y|ies)\b`;
- the search is case-insensitive, and `re.sub(..., count=1)`;
- it reproduces the engine's backtracking order (greedy `s?`; `y` before `ies`).

The cluster table is a parameter of the linking functions and lemmas (`AddLinksWith`, `AddLinksToDescriptionWith`). The concrete table is `KeywordClusters`. In every entry of the source table, the replacement template's URL equals the cluster's `url`, so the model builds the link from the cluster's URL.

Proved beyond each operation's own contract:
- Brightness is bounded and ignores leading `#`s.
- A grey `#vvvvvv` has brightness `v`.
- The sort is a stable permutation.
- The relabelling keeps every hex/brightness pair.
- The logo dictionaries have exactly the input keys, and the last writer of a key wins.
- The completeness count reads off the input.
- The format choice is SVG-first, then the last PNG.
- The cluster order holds each of the five clusters exactly once.
- The inserter's results satisfy its bookkeeping: at most three links, one used cluster per link, no cluster twice, the used clusters in cluster order.
- Running the inserter on its own output changes nothing.
- The role hints are substring tests, and "CTO" occurs inside "DIRECTOR". So a role such as "Director" or "Operations Director" that misses the finance and marketing hints is led by the CTO cluster, before the operations hint is tested. The model keeps this behaviour of the script; `DirectorReadsAsCto` states it for "Director".
- Two patterns that differ only in letter case find the same matches. So a pattern that repeats the pattern before it in another letter case is never the one a cluster applies. In the table, "fractional CFO" repeats "Fractional CFO" in this way. The generic lemma is proved; its instances for the literal table are not stated.

## Model

| member | source | states |
|---|---|---|
| Brightness.StripHashes | scripts/fetch_brand_data_branddev.py:21 | `lstrip('#')`: the result is a suffix, everything removed was `#`, and the result does not start with `#` |
| Brightness.CalculateBrightness | scripts/fetch_brand_data_branddev.py:19-26 | for a string with at least five characters after its leading `#`s, hex digits among the first six, the brightness lies in 0..255 |
| Brightness.BlueChannel | scripts/fetch_brand_data_branddev.py:24 | `int(h[4:6], 16)` is below 256: two digits give the byte, and a five-character string gives its single last digit |
| Brightness.FiveDigitsRead | scripts/fetch_brand_data_branddev.py:19-26 | a five-digit string is read, not rejected: `#fffff` has brightness 227 |
| Brightness.LeadingHashIgnored | scripts/fetch_brand_data_branddev.py:21 | prefixing `#` keeps the string readable and does not change its brightness |
| Brightness.GreyBrightness | scripts/fetch_brand_data_branddev.py:22-26 | the weights sum to 1000: a grey `#vvvvvv` has brightness exactly `v` (black 0, white 255) |
| Brightness.InferColorType | scripts/fetch_brand_data_branddev.py:29-45 | the role is one of dark/light/brand/accent; below 50 it is dark; above 200 it is light, and light only there; brand only in 50..200 |
| Brightness.InferColorTypeMidBand | scripts/fetch_brand_data_branddev.py:37-45 | in 50..200 the name decides: "primary"/"brand" give brand and beat "accent"/"secondary", which give accent; otherwise dark below 128 and accent from 128 |
| Brightness.InferColorTypeNoName | scripts/fetch_brand_data_branddev.py:31 | a missing name acts as the empty name: in 50..200 only the 128 threshold decides |
| Strings.Contains | scripts/fetch_brand_data_branddev.py:37-40 | Python's substring test `p in s`: true exactly when `p` occurs at some index of `s` |
| Strings.ToLower | scripts/fetch_brand_data_branddev.py:31 | `str.lower()` on ASCII: same length, each letter lowered |
| Strings.ToUpper | scripts/add_internal_links_simple.py:114 | `str.upper()` on ASCII: same length, each letter raised |
| Strings.ToUpperHasNoLowerCase | scripts/add_internal_links_simple.py:114-115 | an upper-cased role has no lower-case letter, so it can never equal the key "general" |
| Strings.ToLowerHasNoUpperCase | scripts/fetch_brand_data_branddev.py:31 | a lower-cased name has no upper-case ASCII letter left |
| Strings.ToLowerIgnoresCase | scripts/fetch_brand_data_branddev.py:31-40 | lowering twice changes nothing, and a name lowers like its upper-cased form, so the name tests ignore letter case |
| BrandDev.NormalizeColors | scripts/fetch_brand_data_branddev.py:103-111 | one record per input colour, in input order, with the default hex `#888888`, its brightness and its inferred role |
| BrandDev.NormalizeColor | scripts/fetch_brand_data_branddev.py:104-111 | one colour record: the given hex (or the default) with the brightness computed from it, in 0..255, and a role among dark/light/brand/accent that is dark below 50 and light exactly above 200 |
| BrandDev.BuildColors | scripts/fetch_brand_data_branddev.py:103-111 | the append loop builds exactly that list |
| BrandDev.Insert | scripts/fetch_brand_data_branddev.py:114 | inserting into a brightness-sorted list keeps it sorted and adds one element; the new head is the inserted colour or the old head (the tie placement is `InsertKeepsTies`) |
| BrandDev.InsertPermutes | scripts/fetch_brand_data_branddev.py:114 | insertion adds exactly the new colour to the multiset |
| BrandDev.SortByBrightness | scripts/fetch_brand_data_branddev.py:113-114 | `list.sort(key=brightness)`: the result is sorted by brightness and is a permutation of the input |
| BrandDev.InsertKeepsTies | scripts/fetch_brand_data_branddev.py:114 | insertion puts the new colour first among those of its brightness |
| BrandDev.SortIsStable | scripts/fetch_brand_data_branddev.py:114 | stability: the colours of each brightness keep their input order |
| BrandDev.Relabelled | scripts/fetch_brand_data_branddev.py:116-122 | first entry dark; last light when two or more; second accent when three or more; every other role, and every hex and brightness, unchanged |
| BrandDev.ExtractColors | scripts/fetch_brand_data_branddev.py:103-122 | build, sort, then relabel in place: the result is the relabelled sorted list |
| BrandDev.FinalColors | scripts/fetch_brand_data_branddev.py:103-122 | the returned list has one entry per input colour, is sorted by brightness, and has the darkest labelled dark, the brightest light (two or more) and the second darkest accent (three or more) |
| BrandDev.FinalColorsFaithful | scripts/fetch_brand_data_branddev.py:103-122 | the returned colours are as many as the input's, sorted by brightness, each carrying the hex and brightness of an input colour |
| BrandDev.InsertPermutesPairs | scripts/fetch_brand_data_branddev.py:114 | insertion adds exactly the new colour's hex/brightness pair to the multiset of pairs |
| BrandDev.SortPermutesPairs | scripts/fetch_brand_data_branddev.py:113-114 | sorting keeps the multiset of hex/brightness pairs |
| BrandDev.NormalizedHexBrightness | scripts/fetch_brand_data_branddev.py:104-111 | the built list's hex/brightness pairs are the input hexes (with the default) and their computed brightnesses, in input order |
| BrandDev.RelabelledHexBrightness | scripts/fetch_brand_data_branddev.py:116-122 | relabelling changes no hex/brightness pair |
| BrandDev.FinalColorsPermutation | scripts/fetch_brand_data_branddev.py:103-122 | the returned colours' hex/brightness pairs are a permutation of the input colours' hexes and computed brightnesses |
| BrandDev.FinalEntryCarries | scripts/fetch_brand_data_branddev.py:103-122 | each returned colour carries the hex and computed brightness of some input colour |
| BrandDev.NormalizeMode | scripts/fetch_brand_data_branddev.py:130-132 | the mode is never left as "has_opaque_background"; it reads "dark" exactly when it was "dark" or the opaque background; any other mode is kept |
| BrandDev.LogoKey | scripts/fetch_brand_data_branddev.py:127-134 | `type_mode`: a missing mode and an opaque background are both filed as `type_dark`; any other mode is kept after the underscore |
| BrandDev.LogoMap | scripts/fetch_brand_data_branddev.py:124-135 | the dictionary has no more keys than there are logos, and at least one when there is a logo |
| BrandDev.LogoMapKeys | scripts/fetch_brand_data_branddev.py:124-135 | a key is in `logos` exactly when some input logo has that `type_mode` key |
| BrandDev.LogoMapLastWins | scripts/fetch_brand_data_branddev.py:124-135 | the URL stored under a key is that of the last logo with that key |
| BrandDev.BuildLogos | scripts/fetch_brand_data_branddev.py:124-135 | the logo loop, with its defaults "logo"/"dark" and the opaque-background rule, builds that dictionary |
| BrandDev.Banners | scripts/fetch_brand_data_branddev.py:137-141 | `banner` is present exactly when there is a backdrop, it is the only key, and it holds the first backdrop's URL |
| BrandDev.FilterIndustries | scripts/fetch_brand_data_branddev.py:150-152 | the list holds exactly the non-empty `industry` values of the `eic` entries and is no longer than them |
| BrandDev.FilterIndustriesAppend | scripts/fetch_brand_data_branddev.py:150-152 | filtering distributes over concatenation, so input order is kept |
| BrandDev.Industries | scripts/fetch_brand_data_branddev.py:146-152 | a non-dict yields no industries; a dict yields exactly the non-empty `industry` values of its `eic` entries; no industry is empty |
| BrandDev.BuildIndustries | scripts/fetch_brand_data_branddev.py:146-152 | the loop yields the filtered `eic` list for a dict and nothing for any other JSON value |
| BrandDev.CountTrue | scripts/fetch_brand_data_branddev.py:163 | `sum` of booleans: at most the length; equal to it exactly when all hold; zero exactly when none holds |
| BrandDev.LogoMapEmpty | scripts/fetch_brand_data_branddev.py:157 | the logo dictionary is empty exactly when the input has no logos |
| BrandDev.QualityFromInput | scripts/fetch_brand_data_branddev.py:155-162 | the six factors read off the input: any colours, any logos, any backdrops, a non-empty description, a non-empty city, any industry |
| BrandDev.BrandRecordOf | scripts/fetch_brand_data_branddev.py:165-179 | the record: score numerator at most 6, one colour per input colour, sorted, and no fonts, founding year, employee count or company type |
| BrandDev.QualityOfBrand | scripts/fetch_brand_data_branddev.py:154-163 | the score numerator is the count of the six input facts |
| BrandDev.ExtractBrandData | scripts/fetch_brand_data_branddev.py:98-179 | the extractor returns exactly that record |
| Brandfetch.LastFontName | scripts/fetch_brand_data.py:83-87 | the name of the last font of the type, or none when no font has it |
| Brandfetch.PickFonts | scripts/fetch_brand_data.py:79-87 | the font loop leaves the last title font's and the last body font's names |
| Brandfetch.LogoKey | scripts/fetch_brand_data.py:92-94 | `type_theme`: a missing theme is filed as `type_light`; a given theme is kept after the underscore |
| Brandfetch.FirstOf | scripts/fetch_brand_data.py:96-101 | a source found is that of some format with the name |
| Brandfetch.LastOf | scripts/fetch_brand_data.py:96-103 | a source found is that of some format with the name |
| Brandfetch.ChosenSource | scripts/fetch_brand_data.py:96-103 | a chosen source is that of some SVG or PNG format of the logo |
| Brandfetch.CopyColors | scripts/fetch_brand_data.py:71-77 | one entry per input colour, in order, with its hex, type and brightness |
| Brandfetch.FirstOfNone | scripts/fetch_brand_data.py:98-101 | no SVG source is found exactly when no format is SVG |
| Brandfetch.FirstOfFirst | scripts/fetch_brand_data.py:98-101 | the SVG source found is that of the first SVG format |
| Brandfetch.LastOfNone | scripts/fetch_brand_data.py:102-103 | no PNG source is found exactly when no format is PNG |
| Brandfetch.LastOfLast | scripts/fetch_brand_data.py:102-103 | the PNG source found is that of the last PNG format |
| Brandfetch.ChosenSvg | scripts/fetch_brand_data.py:96-101 | when the logo has an SVG, the first SVG's source is chosen, whatever PNGs precede it |
| Brandfetch.ChosenPng | scripts/fetch_brand_data.py:96-103 | with no SVG, the last PNG's source is chosen |
| Brandfetch.ChosenNone | scripts/fetch_brand_data.py:96-103 | nothing is written exactly when the logo has neither an SVG nor a PNG |
| Brandfetch.ApplyFormats | scripts/fetch_brand_data.py:96-103 | the format loop, with its early exit, writes the chosen source under the key, or leaves the dictionary alone |
| Brandfetch.LogoMapKeys | scripts/fetch_brand_data.py:89-103 | a key is present exactly when some logo with that `type_theme` key has an SVG or a PNG |
| Brandfetch.LogoMapLastWins | scripts/fetch_brand_data.py:89-103 | the last logo with a usable format wins its key; later logos with no usable format do not erase it |
| Brandfetch.LogoMap | scripts/fetch_brand_data.py:89-103 | the dictionary has no more keys than there are logos |
| Brandfetch.BuildLogos | scripts/fetch_brand_data.py:89-103 | the logo loop, with defaults "logo"/"light", builds that dictionary |
| Brandfetch.IndustryNames | scripts/fetch_brand_data.py:117 | one entry per company industry, in order, holding its name |
| Brandfetch.ExtractBrandData | scripts/fetch_brand_data.py:68-119 | the record: copied colours, picked fonts, chosen logos, description, founding year, employee count, no location, industry names, the provider's score |
| PhraseMatch.MatchAt | scripts/add_internal_links_simple.py:26-32 | a match starts at a word boundary and holds the stem in any letter case; what follows the stem is one suffix alternative, then a word boundary; when boundary and stem are there, every alternative followed by a boundary gives a match ending at least that far; the group is the stem text, with the `y`/`ies` in that family |
| PhraseMatch.MatchSuffix | scripts/add_internal_links_simple.py:26-32 | the characters consumed after the stem spell one alternative (nothing; nothing or `s`; `y` or `ies`) and a word boundary follows; there is a match whenever some alternative is followed by a boundary, and the one taken is the longest such, as greedy `s?` and `y`-before-`ies` backtracking choose; the group ends after the stem, or after `y`/`ies` in that family |
| PhraseMatch.SearchFrom | scripts/add_internal_links_simple.py:146 | `re.search`: the leftmost match; none before it; none at all when it finds nothing |
| PhraseMatch.Search | scripts/add_internal_links_simple.py:146 | `re.search` over the whole text: the leftmost match, none before it, none at all when it finds nothing |
| PhraseMatch.OccurrenceIsFound | scripts/add_internal_links_simple.py:146 | every boundary-stem-suffix-boundary occurrence is found: the search returns a match starting there or earlier |
| PhraseMatch.Anchor | scripts/add_internal_links_simple.py:26 | the replacement `[\1](url)`: the matched text between the brackets and the URL between the parentheses, four characters added |
| PhraseMatch.SubFirst | scripts/add_internal_links_simple.py:149 | `re.sub(count=1)`: the text is unchanged without a match, else the leftmost match is replaced by `[group](url)` |
| PhraseMatch.NoStemNoMatch | scripts/add_internal_links_simple.py:146 | a text without the stem, in any letter case, has no match |
| PhraseMatch.PluralIsDropped | scripts/add_internal_links_simple.py:26 | the optional plural `s` is matched but left out of the link text |
| PhraseMatch.StemAtIgnoresCase | scripts/add_internal_links_simple.py:146 | a stem found at a position is found there in any letter case |
| PhraseMatch.CaseVariantsMatchAt | scripts/add_internal_links_simple.py:146 | patterns whose stems differ only in letter case match at the same positions with the same result |
| PhraseMatch.CaseVariantsSearchAlike | scripts/add_internal_links_simple.py:146 | such patterns find the same leftmost match |
| InternalLinks.Url | scripts/add_internal_links_simple.py:24 | every cluster's URL starts with `/fractional-jobs` |
| InternalLinks.KeywordClusters | scripts/add_internal_links_simple.py:20-93 | the table's entries carry the cluster URLs |
| InternalLinks.Patterns | scripts/add_internal_links_simple.py:22-93 | each cluster's patterns in source order; eight to ten per cluster |
| InternalLinks.KeywordClustersLinkInternal | scripts/add_internal_links_simple.py:20-93 | every link target of the table points into the jobs pages |
| InternalLinks.ClusterNamed | scripts/add_internal_links_simple.py:115 | `name in KEYWORD_CLUSTERS`, in both directions, and which cluster it names |
| InternalLinks.Priority | scripts/add_internal_links_simple.py:113-124 | the role's leading cluster is never "general", and there is none for a missing or empty role |
| InternalLinks.DirectorReadsAsCto | scripts/add_internal_links_simple.py:117-122 | the hints are substring tests and "CTO" occurs in "DIRECTOR": the role "Director" is led by the CTO cluster |
| InternalLinks.AppendMissing | scripts/add_internal_links_simple.py:127-129 | appending the missing clusters keeps the prefix, adds no duplicate and leaves every listed cluster present |
| InternalLinks.Leading | scripts/add_internal_links_simple.py:112-124 | the order's head is duplicate-free and holds "general" |
| InternalLinks.AppendMissingStep | scripts/add_internal_links_simple.py:127-129 | one turn of the appending loop preserves the final order |
| InternalLinks.AppendEach | scripts/add_internal_links_simple.py:127-129 | the appending loop builds exactly that order |
| InternalLinks.ClusterOrder | scripts/add_internal_links_simple.py:111-129 | all five clusters exactly once; led by the role's cluster then "general", or by "general" when the role names none |
| InternalLinks.AllClustersCount | scripts/add_internal_links_simple.py:111-129 | a duplicate-free order holding every cluster has length five |
| InternalLinks.ComputeClusterOrder | scripts/add_internal_links_simple.py:111-129 | the insert-then-append code builds exactly that order |
| InternalLinks.FirstMatching | scripts/add_internal_links_simple.py:144-147 | the index of the first pattern with a match; none earlier has one; none found means no pattern matches |
| InternalLinks.ApplyCluster | scripts/add_internal_links_simple.py:143-152 | a cluster links nothing exactly when none of its patterns has a match |
| InternalLinks.ApplyClusterUsesFirstPattern | scripts/add_internal_links_simple.py:143-152 | otherwise the first matching pattern's leftmost match becomes a link to the cluster's URL |
| InternalLinks.CaseDuplicateNeverFirst | scripts/add_internal_links_simple.py:26-29 | a pattern that repeats its predecessor in another letter case is never the first to match |
| InternalLinks.TryPatterns | scripts/add_internal_links_simple.py:143-152 | the pattern loop with its `break` links exactly what a cluster's turn links, or reports that nothing matched and leaves the text alone |
| InternalLinks.RunTurn | scripts/add_internal_links_simple.py:135-152 | below the cap, the loop takes the next cluster's turn and continues with the rest |
| InternalLinks.StepOutcome | scripts/add_internal_links_simple.py:147-152 | a linking turn replaces the text, counts one link and records the cluster; a non-linking turn changes nothing |
| InternalLinks.Step | scripts/add_internal_links_simple.py:143-152 | one cluster's turn adds a link exactly when the cluster has a match; then the text is the linked text, the count grows by one and the cluster is recorded; otherwise nothing changes |
| InternalLinks.Run | scripts/add_internal_links_simple.py:131-152 | the loop adds at most one link per cluster of the order and never takes the count above three |
| InternalLinks.ApplyClusters | scripts/add_internal_links_simple.py:131-152 | the cluster loop, with its stop at three links, computes the run over the order |
| InternalLinks.AnchorHasMarker | scripts/add_internal_links_simple.py:105 | an inserted link to a jobs page contains the marker `](/fractional-jobs` |
| InternalLinks.ApplyClusterHasMarker | scripts/add_internal_links_simple.py:105 | a cluster turn that links leaves the marker in the text |
| InternalLinks.RunInvariant | scripts/add_internal_links_simple.py:131-152 | the loop keeps at most three links, one used cluster per link, new clusters in order, and an unchanged text when nothing was linked |
| InternalLinks.RunNoMatch | scripts/add_internal_links_simple.py:135-152 | when no cluster has a match, the loop changes nothing |
| InternalLinks.RunNothingAdded | scripts/add_internal_links_simple.py:135-152 | a loop that adds no link met no cluster with a match |
| InternalLinks.AddLinksBounds | scripts/add_internal_links_simple.py:96-154 | at most three links; as many used clusters as links; no cluster twice; used clusters in cluster order; no link means the text is unchanged; a link means the marker is present |
| InternalLinks.AddLinksWith | scripts/add_internal_links_simple.py:96-154 | an empty or already linked text is returned unchanged with no links; at most three links are added |
| InternalLinks.AddLinks | scripts/add_internal_links_simple.py:96-154 | with `KEYWORD_CLUSTERS`: at most three links, one distinct cluster per link, an unchanged text when none was added, and the marker present when one was |
| InternalLinks.AddLinksNoMatch | scripts/add_internal_links_simple.py:96-154 | a text with no match in any cluster comes back unchanged with no links |
| InternalLinks.AddLinksIdempotent | scripts/add_internal_links_simple.py:96-154 | for any table of internal links, running the inserter on its output adds nothing, whatever role is given the second time |
| InternalLinks.AddLinksIsIdempotent | scripts/add_internal_links_simple.py:96-154 | the same with `KEYWORD_CLUSTERS` |
| InternalLinks.AddLinksToDescriptionWith | scripts/add_internal_links_simple.py:96-154 | the function as written computes the specified outcome, with the bounds above |
| InternalLinks.AddLinksToDescription | scripts/add_internal_links_simple.py:96-154 | the same with `KEYWORD_CLUSTERS` |

## Left out

- These are not part of this model: database access (`get_db_connection`, the fetch and save queries), the HTTP calls to Brand.dev and Brandfetch, environment variables, command-line parsing, printing, and the `main` and `process_jobs` drivers. Only the extraction and linking functions are modelled.
- `add_internal_links.py`, the language-model variant of the link inserter, is not part of this model: it calls an external service.
- Brightness.CalculateBrightness: requires at least five characters after the leading `#`s, with hex digits among the first six. Five characters are read as the source reads them, with a one-digit blue channel. The source raises an exception on three or four characters, on a non-hex digit, and on a `null` hex, which reaches `lstrip` as `None`. Python's `int(x, 16)` also accepts some slices that are not plain digits, such as a sign or surrounding whitespace; those strings are outside the precondition.
- BrandDev.BrandRecordOf: the score is kept as the count of true factors, out of 6. The division by 6 and `round(..., 2)` in floating point are not modelled.
- Strings.ToLower, Strings.ToUpper: ASCII letters only. Python's Unicode case mapping is not modelled.
- PhraseMatch.MatchAt: `\b` and case-insensitive matching treat only ASCII letters, digits and `_` as word characters, and fold only ASCII letters. Python's Unicode word characters and Unicode case folding (for example the long s matching `s`) are not modelled.
- PhraseMatch.MatchAt: only the three pattern shapes the cluster table uses are modelled, not general regular expressions.
- JSON `null` differs from an absent key only in the logo fields used to build dictionary keys, where `null` shows as "None", and in the colour hex. Elsewhere a `null` and an absent field are both `None`.
- A `null` for `backdrops` in a Brand.dev response acts as the empty list: `if backdrops:` is false and no banner is written. The model covers that case with the empty list. A `null` `industries` is not a dict and yields no industries, which is the model's `NotADict`.
- Other `null`s where the source expects an object or a list are not modelled, because the source raises on them. In Brand.dev these are `colors`, `logos`, `address`, the `eic` list, a colour, a logo, an `eic` entry, or a first backdrop; a `null` backdrop after the first is never read. In Brandfetch they are `colors`, `fonts`, `logos`, a logo's `formats`, `company`, its `industries`, or any entry of those lists.
- BrandDev.BuildLogos, Brandfetch.BuildLogos: the `logos` dictionary is a Dafny `map`, which has no order. A Python dict keeps insertion order, and the save step stores it as JSON in that order. Nothing in the modelled code reads that order.
- `text=None` for the link inserter is not modelled; the empty string takes the same early return.
- The `if not cluster: continue` branch of the cluster loop is not modelled. Every name in the cluster order is a key of the table, so with a datatype of clusters the branch cannot happen.
- The Brandfetch `qualityScore` is passed through as an optional real. Brandfetch colour fields are copied as they come, without checking their types.
- The in-place mutation of the colour dictionaries is modelled as updates of an immutable sequence. The script holds no other reference to those dictionaries, so no aliasing is lost.
