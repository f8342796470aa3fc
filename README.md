# Blogs for boredom: a verified model of the catalog queries and the suggestion aggregator

Blogs for boredom is a small Flask site of "things to do when bored". Its pages
are rendered from a fixed in-memory catalog of eight posts. The home page adds
live suggestions fetched from three public web services. This project models
the logic under the web glue of `main.py`:

- **The catalog** (`catalog.dfy`): the eight posts (`id`, `category`,
  `featured`), the category list headed by the `"All"` sentinel, and the three
  queries the pages run: the featured list of `/`, the lookup by id of
  `/activity/<id>` (which drives the 404), and the case-insensitive filter of
  `/category/<name>`. The list comprehensions become `Seqs.Filter`
  (`seqs.dfy`), proved to keep exactly the matching elements in their order.
- **Payload normalisation** (`normalise.dfy`): the dictionary that both the
  aggregator and `/random` build from a random-activity payload. Missing keys
  take defaults. The type goes through `str.capitalize` (`text.dfy`). The price
  is `Free` exactly when `data.get("price", 0) == 0`.
- **The aggregator** (`suggestions.dfy`): `get_api_suggestions` as a method with
  a loop over the outcomes of the three activity calls, followed by the advice
  block and the quote block. It is proved equal to a specification function
  `Aggregate`. Its shape (at most five entries, activities before advice
  before quote) and the loop's semantics are proved as lemmas.
- **The random page** (`random.dfy`): the single activity fetch of `/random`.
  It is proved to normalise exactly like one aggregator attempt.

The network is not modelled as such. Each `requests.get` call becomes an
`Http.Outcome`: either the call raised (connection error or timeout), or a
response arrived with a status code and a body. The body is a parsed JSON value
(`PyJson.Value`), or `None` when `response.json()` would raise. The Python
operations that can raise on an unexpected body are modelled with the exception
they raise: `.get` on a non-dict, `.capitalize()` on a non-string, `in` and
`len` on a number, and `data[0]` on a dict. Each lands in one of the
`except Exception` blocks.

Three behaviours of the code are worth spelling out, as a reader might expect
otherwise:

- Python's `str.capitalize` upper-cases the first character and lower-cases
  all the others, so `"rEcreational"` becomes `"Recreational"`
  (`Text.Capitalize`).
- The `try` of the activity block encloses the whole `for` loop
  (main.py:13-27). The first call that raises therefore abandons the remaining
  calls, while the entries already appended are kept.
  `Suggestions.FirstCallRaisingLosesTheRest` shows the effect: a raise on the
  first call loses two later calls that would have succeeded.
- The quote block indexes `data[0]` (main.py:48-52). A quote body that is a
  bare JSON object raises `KeyError` there, so it contributes nothing
  (`Suggestions.BareQuoteObjectIgnored`). With the service's real shape, a
  one-element list, a juggling example yields four entries
  (`Suggestions.JugglingExample`).

## Model

| member | source | states |
|---|---|---|
| `Catalog.CatalogIds` | main.py:60-188 | the catalog has eight posts whose ids are 1..8 in order, so the ids are pairwise distinct |
| `Catalog.CatalogCategories` | main.py:60-192 | every post's category is in `categories` and is not the `"All"` sentinel; every listed category other than `"All"` is used by some post |
| `Seqs.Filter` | main.py:198 | a comprehension with an `if` keeps a subsequence of its input (original relative order), never longer than the input |
| `Seqs.FilterCounts` | main.py:198 | a kept element occurs in the result exactly as often as in the input, and a dropped one never occurs; so an element is in the result iff it is in the input and passes the test |
| `Catalog.Featured` | main.py:198 | the featured list holds exactly the posts whose `featured` flag is set, each as often as in the catalog, in catalog order, and is no longer than the catalog |
| `Catalog.HomeFeatured` | main.py:198 | for the shipped catalog the home page features posts 1, 3, 5 and 7, in that order |
| `Catalog.FindById` | main.py:218 | the lookup yields None iff no post has the id; otherwise it yields the post at the first index whose id matches, and no earlier post has that id |
| `Catalog.FindByIdUnique` | main.py:218 | when ids are unique, looking up any post's id yields that very post |
| `Catalog.DetailStatus` | main.py:218-220 | the detail route answers 404 iff no post has the id, and 200 iff some post has it |
| `Catalog.DetailPages` | main.py:214-225 | for the shipped catalog, ids 1..8 find posts 1..8 with status 200, and every other id gives 404 |
| `Catalog.ByCategory` | main.py:233 | the category listing holds exactly the posts whose lower-cased category equals the lower-cased name, each as often as in the catalog, in catalog order |
| `Catalog.ByCategoryIgnoresCase` | main.py:233 | two names that agree after lower-casing select the same posts |
| `Catalog.ByCategoryNoMatch` | main.py:233 | a name that matches no post gives an empty listing, not an error |
| `Catalog.OutdoorPage` | main.py:229-240 | for the shipped catalog, `/category/outdoor` lists exactly post 4 |
| `Catalog.NonexistentPage` | main.py:229-240 | for the shipped catalog, `/category/Nonexistent` gives an empty listing, not an error |
| `Text.LowerStr` | main.py:233 | lower-casing keeps the length and leaves no upper-case letter; every other character is kept, and each upper-case letter becomes the lower-case letter whose capital it is |
| `Text.LowerStrIdempotent` | main.py:233 | lower-casing twice is lower-casing once |
| `Text.Capitalize` | main.py:21 | the result spells the input with only its case changed: the first character is not a lower-case letter and no later character is an upper-case letter |
| `Text.CapitalizationUnique` | main.py:21 | that characterisation determines the result: any string meeting it equals `Capitalize` of the input |
| `Text.CapitalizeIgnoresCase` | main.py:21 | inputs that agree after lower-casing capitalize to the same string |
| `Text.CapitalizeIdempotent` | main.py:21 | capitalizing twice is capitalizing once |
| `Http.Fetch` | main.py:15-17 | a call yields "nothing to do" iff the status is not 200; it raises iff the request raised or a 200 body does not parse; otherwise it yields the parsed body of a 200 response |
| `Normalise.NormaliseActivity` | main.py:20-24 | normalisation raises AttributeError iff the body is not a JSON object or its type is present but not a string; otherwise every missing key takes its default (`""`, `""`, 1), the type is capitalized, and the price is Free iff the price field (default 0) equals 0 |
| `Normalise.NormalisedFromUnique` | main.py:20-24 | that description of the normalised fields leaves no choice: any fields meeting it are the ones `NormaliseActivity` builds |
| `Normalise.FreePrices` | main.py:23 | for a payload without a type, a missing price, `0` and `false` give Free |
| `Normalise.PaidPrices` | main.py:23 | for a payload without a type, `null`, the string `"0"` and every non-zero number give Paid |
| `Normalise.PriceOf` | main.py:23 | for a payload without a type, the price is Free exactly when the price field equals 0 in Python's sense (the integer 0 or `false`) |
| `Normalise.JugglingNormalised` | main.py:18-25 | the payload "Learn juggling" of type "recreational", one participant and price 0 becomes category "Recreational", Free, accessibility 0 |
| `Suggestions.ActivityStepMeaning` | main.py:15-25 | one activity call is skipped iff the status is not 200; it raises iff the request raised or a 200 body is unparseable, not an object, or has a non-string type; otherwise it appends one Activity entry normalised from the payload, with accessibility defaulting to 0 |
| `Suggestions.AdviceStepMeaning` | main.py:30-39 | the advice entry is appended iff the call returns a 200 object with a `"slip"` key holding an object; its text defaults to `""` and its id to 0 |
| `Suggestions.QuoteStepMeaning` | main.py:44-53 | the quote entry is appended iff the call returns a 200 non-empty list whose first element is an object; its text defaults to `""` and its author to `"Unknown"` |
| `Suggestions.ActivityEntries` | main.py:13-27 | the activity loop appends at most one entry per call, and only Activity entries |
| `Suggestions.AggregateShape` | main.py:8-57 | the aggregated list has at most two entries more than there are activity calls; activities come before advice, advice before the quote, and there is at most one advice and at most one quote |
| `Suggestions.GetSuggestions` | main.py:8-57 | the aggregator, run as a loop over its three activity calls and then the advice and quote blocks, returns exactly the list `Aggregate` specifies for those five outcomes: the loop's entries, then the advice entry if any, then the quote entry if any; hence at most five entries. It has no error result, as no exception escapes |
| `Suggestions.FirstFailure` | main.py:13-27 | the index of the first activity call that raises, or the number of calls when none raises: no earlier call raises, and the call at that index does |
| `Suggestions.ActivityEntriesUpToFirstFailure` | main.py:13-27 | the loop's entries are those that the calls before the first raising call contribute on their own: one entry per 200 response that normalises, none for other statuses |
| `Suggestions.CallsAfterFailureIgnored` | main.py:13-27 | the outcomes of the calls after the first raising call do not affect the result, as those calls are never made |
| `Suggestions.NoFailureMeansPerCall` | main.py:14-25 | when no activity call raises, each call contributes independently of the others |
| `Suggestions.FirstCallRaisingLosesTheRest` | main.py:13-27 | a raise on the first activity call loses two later successful calls, where per-call guarding would have kept both |
| `Suggestions.JugglingExample` | main.py:8-57 | three successful "Learn juggling" calls, a failed advice call and a one-element quote list yield three Activity entries (category "Recreational", Free) and then one Quote by "Anon" |
| `Suggestions.BareQuoteObjectIgnored` | main.py:45-53 | a 200 quote body that is an object, not a list, raises KeyError and so contributes nothing |
| `RandomPage.RandomActivityOf` | main.py:247-260 | the random page has an activity iff an aggregator attempt on the same outcome would append one; it then carries the same text, category, participants and price, and its link defaults to `""` |

## Left out

- Flask set-up, route dispatch, `render_template` and `app.run(debug=True)`: framework plumbing with no behaviour of its own. The model gives the data each route computes, not the page.
- `datetime.now().year` on every page: wall-clock input that only feeds the templates.
- The `print` of each caught exception: a log side effect. The model keeps the exception as `Step.Fail`, but the log line is not modelled.
- The network calls themselves, their URLs and their 5-second timeouts: each call is an `Http.Outcome` parameter. A timeout is one way for the call to be `Raised`.
- `response.json()` parsing: a body is either a parsed `PyJson.Value` or unparseable (`None`).
- The display strings of the posts (title, emoji, difficulty, time needed, description, tips): content, not behaviour.
- `category_name.capitalize()` for the category page heading (main.py:237) and `total_activities=len(blog_posts)` (main.py:209): rendering inputs only. The first is the same `Text.Capitalize`.
- `Normalise.NormaliseActivity`: JSON numbers are integers, so a fractional price such as `0.1` (Paid) or `0.0` (Free in Python) is not represented.
- `Text.Capitalize`: case mapping covers ASCII letters only. Python's Unicode case mapping (title-case first letters, multi-character expansions) is not modelled.
- `Text.LowerStr`: ASCII-only like `Capitalize`, so `Catalog.ByCategory` matches names case-insensitively only over ASCII letters.
- `Suggestions.GetSuggestions`: the three activity outcomes are given up front, as the outcomes the three calls would meet. Calls after the first raise are not made, and `Suggestions.CallsAfterFailureIgnored` shows their outcomes are not used.
