# Shopify auto-pilot: the promotion robot and its helpers

This project models the logic core of `main.py`, a Streamlit app for a Shopify
store. The model has five parts:

- **SEO audit** (`Seo`). `auditoria_seo` starts a product at 100 points. It deducts
  15 for a title shorter than 20 characters, 30 for a missing image and 10 for a
  description shorter than 100 characters. Each deduction records one issue.
- **Shop addressing** (`Shop`, with string helpers in `Text`).
  - The shop domain from the environment loses its `https://` and `http://` schemes
    and the slashes at both ends.
  - Admin URLs have the form `https://{shop}/admin/api/2024-01/{endpoint}`.
  - `shopify_get` yields an empty document unless the answer has status 200.
  - The collection listing is the smart list followed by the custom list.
  - The products endpoint treats `"all"` as the whole catalogue.
- **Adaptive copy** (`Copywriter`). Each of four platforms has a style guideline. A
  prompt is sent to the text-generation model. When the model call fails, the copy
  is the fixed sentence `¡Oferta! {title} a solo {price}.`.
- **One robot run** (`Robot`). `tarea_publicar_redes`:
  - returns at once without a webhook URL;
  - fetches the configured collection and returns if it is empty;
  - draws `min(cantidad, n)` distinct products;
  - for each drawn product, writes copy, builds the webhook payload and posts it;
  - pauses two seconds after every post that did not raise.

  What a run does to the outside world is recorded as a trace of events: the
  catalogue request, each model prompt, each post with its result, each pause.
- **The job registry** (`Scheduling`).
  - The background scheduler is a class holding its list of jobs.
  - Saving the robot form writes the new configuration. It then removes every job
    and adds one daily job for the new configuration.
  - The dashboard and the status panel show the robot as active exactly when a job
    is registered.

The world outside the program is modelled as functions of their input:

- the shop's HTTP answers: a `Request` maps to a `Response`;
- the text-generation model: a prompt maps to `Generated(text)` or `GenFailed`;
- the webhook: a URL and a payload map to `Delivered(status)` or `PostRaised`.

`random.sample` is a choice of distinct positions, returned to the caller. Python
exceptions that escape a run are values: the `KeyError` of a missing product key,
and the `ValueError` of a negative sample size.

The robot loop is `Robot.PublishSelection`. It is proved against the specification
function `Robot.SelectionEvents`. The lemmas about that function give the
properties of a run:

- which payloads are posted;
- how the run ends;
- that every drawn product is prompted once;
- that pauses follow exactly the posts that did not raise.

The copywriter reaches the loop as two functions of the product, the prompt and the
copy, fixed for the run by `Robot.ContextOf`.

## Model

| member | source | states |
|---|---|---|
| Seo.AuditSeo | main.py:150-157 | A `KeyError` for `title` exactly when the product has no title. Otherwise the issues are exactly the failed checks in the order title, image, description. The score is 100 minus 15, 30 and 10 for the respective failed checks, which is 100 minus the penalties of the recorded issues. The score lies in 45..100 and is 100 exactly when there are no issues. |
| Seo.PenaltyOfFailedChecks | main.py:153-156 | The penalties of the recorded issues add up to the three deductions the audit makes. |
| Text.Strip | main.py:44 | `str.strip(c)`: the result neither starts nor ends with `c`, is a contiguous part of the input, and everything cut off is `c`. |
| Text.RemoveAll | main.py:44 | `str.replace(pat, "")` never lengthens the string. Its exact value is stated by the next three lemmas. |
| Text.RemoveAllAbsent | main.py:44 | `str.replace(pat, "")` leaves a string alone when it lacks one of the pattern's characters. |
| Text.RemoveAllMisaligned | main.py:44 | The string is also left alone when that character occurs only at an index too small for any occurrence of the pattern, so `http://…` has no `https://` to remove. |
| Text.RemoveLeading | main.py:44 | A leading copy of the pattern is removed and the scan goes on after it. |
| Text.StripTrailing | main.py:44 | `str.strip(c)` removes any run of `c` after a string that has no `c` at either end. |
| Shop.NormalizeDomain | main.py:44 | The normalised domain never starts or ends with `/` and is never longer than the raw value. |
| Shop.NormalizeKeepsBareDomain | main.py:44 | A domain without `:` and without slashes at its ends is left unchanged. |
| Shop.NormalizeSchemeAndSlash | main.py:44 | `https://` or `http://`, then host, then any number of slashes, normalises to host, for any host without `:` and without slashes at its ends. |
| Shop.NormalizeExample | main.py:44 | `https://shop.myshopify.com/` normalises to `shop.myshopify.com`. |
| Shop.ShopHost | main.py:40-44 | An unset variable prints as `None` in every URL. A set value is normalised. |
| Shop.Headers | main.py:65-67 | No headers without a token. With a token, exactly two headers: the access token and `Content-Type: application/json`. |
| Shop.AdminUrl | main.py:70 | The URL is `https://`, the host, `/admin/api/2024-01/` and the endpoint, each at its offset, and nothing else. |
| Shop.ShopifyGet | main.py:69-74 | A status-200 answer with a JSON body yields that body. Every other outcome (an exception, another status, a body that is not JSON) yields the empty document. |
| Shop.GetCollections | main.py:76-80 | The smart collections the shop answers with, followed by the custom ones. A failed request or a document without the key contributes nothing. |
| Shop.CollectionsOfReplies | main.py:76-80 | With two status-200 JSON answers, the collections are the first document's smart list followed by the second's custom list. |
| Shop.FailedCollectionFetch | main.py:72-80 | A collections request that raises or gets another status contributes nothing, and the other list is returned alone. |
| Shop.LimitQuery | main.py:84-87 | The query is `products.json`, then `?limit=`, then the decimal text of the limit, and nothing else. |
| Shop.ProductsEndpoint | main.py:82-87 | For `"all"` the endpoint is exactly the limit query. Any other id gives `collections/`, the id, `/` and then the limit query. The endpoint starts with the listing exactly when the id is `"all"`. |
| Shop.GetProductsByCollection | main.py:82-87 | The products are the `products` list of a status-200 JSON answer to the endpoint's request. Any other outcome gives none. |
| Shop.EndpointCarriesLimit | main.py:82-87 | The limit written at the end of the endpoint reads back as the requested limit. |
| Shop.FailedFetchListsNothing | main.py:73-87 | A raised request or a status other than 200 lists no products. |
| Text.IntTextRoundTrip | main.py:85 | The decimal text of an integer parses back to the same integer. |
| Copywriter.Guideline | main.py:97-101 | The guideline is non-empty exactly for Instagram, TikTok, LinkedIn and Facebook. |
| Copywriter.GuidelinesDiffer | main.py:97-101 | Two different supported platforms get different guidelines. |
| Copywriter.CopyTitle | main.py:93 | The title the copy uses: the product's own, or `Producto` when it has none. |
| Copywriter.CopyPrice | main.py:94-95 | The price is the first variant's price. It is `Consultar` when there are no variants or the first one has no price. |
| Copywriter.Prompt | main.py:103-108 | Platform, title, price, tone and guideline each sit at the position the fixed wording leaves for them. |
| Copywriter.Fallback | main.py:112 | The fallback copy is non-empty, ends with `.`, and contains the title and the price. |
| Copywriter.AdaptiveCopy | main.py:91-112 | A successful model call gives its text. A failed call gives exactly `¡Oferta! ` + title + ` a solo ` + price + `.`. |
| Copywriter.FallbackForBareProduct | main.py:93-112 | A product without title and variants falls back to `¡Oferta! Producto a solo Consultar.`. |
| Copywriter.FailedModelStillGivesCopy | main.py:109-112 | A failing model still yields non-empty copy naming the product's title and price. |
| Robot.ProductUrl | main.py:133 | The product link is `https://`, the host, `/products/` and the handle, and nothing else. |
| Robot.FirstMissing | main.py:132-136 | The escaping error of a product that cannot be posted is a `KeyError`. |
| Robot.BuildPayload | main.py:131-136 | A payload is built exactly for postable products, with every field as the source assigns it. Otherwise the result is the `KeyError` of the first missing key, in the order image, handle, price, title. |
| Robot.CopyAndPayloadPrices | main.py:134 | The copy and the payload quote the same price when there are variants. Without variants, the copy says `Consultar` and the payload carries `""`. |
| Robot.ContextOf | main.py:127-133 | The run posts for the configured platform (or the default) to the configured webhook, links to the normalised shop host, and its prompt and copy for a product are those of the copywriter for that platform and tone. |
| Robot.Sample | main.py:125 | `random.sample` draws `k` distinct positions of the population. |
| Robot.Pick | main.py:125 | The selection is the products at the drawn positions, in the order drawn. |
| Robot.RunEvents | main.py:114-141 | A run without a webhook does nothing. Otherwise it first requests the catalogue, and with an empty catalogue it does nothing else. |
| Robot.PublishRun | main.py:114-141 | The run makes a valid draw, and its trace and exit are exactly those of the specification `RunEvents` for that draw. |
| Robot.PublishSelection | main.py:130-141 | The loop's trace and exit are exactly those of the specification `SelectionEvents`. |
| Robot.PublishItem | main.py:130-141 | One iteration's events and escaping error are exactly those of the specification `ItemEvents`. |
| Robot.ItemEventsShape | main.py:130-141 | Every item asks the model first. A postable item then posts its payload, pauses unless the post raised, and raises nothing. Any other item raises the `KeyError` of its first missing key. |
| Robot.ItemProjections | main.py:130-141 | An item posts its payload exactly when it is postable, and it prompts the model exactly once. |
| Robot.PostablePrefix | main.py:130-136 | This is the longest prefix of postable products of the draw. |
| Robot.SelectionPosts | main.py:130-141 | The loop posts one payload per product of the postable prefix, in the order drawn, and nothing else. A raising post does not stop it. |
| Robot.SelectionPrompts | main.py:130-131 | The model gets one prompt for every product the loop starts on, in order. |
| Robot.SelectionExit | main.py:130-136 | The loop returns exactly when every drawn product is postable. Otherwise the `KeyError` of the first product that is not postable escapes. |
| Robot.SelectionPaced | main.py:138-141 | Every pause follows a post that did not raise, and every such post is followed by a pause of two seconds. |
| Robot.RunPosts | main.py:117-141 | No webhook, an empty catalogue or a negative count means no posts. Otherwise the run posts the payloads of the postable prefix of the draw. |
| Robot.RunPostsSample | main.py:124-141 | Over a postable catalogue, a run returns normally after exactly `min(cantidad, n)` posts. |
| Robot.AllPostable | main.py:130-141 | A draw of postable products is posted in full, and the loop returns. |
| Robot.DefaultRequest | main.py:119-120 | The empty configuration lists the whole catalogue with a page size of 50. |
| Robot.DefaultCountRun | main.py:124-125 | Without `cantidad`, a run over a non-empty postable catalogue posts exactly once. |
| Robot.DefaultStyle | main.py:127-128 | Without `plataforma`, the run posts for Instagram. Without `tono`, copy is asked in the `Divertido` tone. |
| Robot.PostsCarryPlatform | main.py:136 | Every posted payload names the run's platform and carries the copy written for its own product. |
| Scheduling.FormatClock | main.py:233 | `%H:%M` gives five characters with a colon in the middle. |
| Scheduling.ParseClock | main.py:222 | A parsed time is a valid time of day. |
| Scheduling.ClockRoundTrip | main.py:233 | The saved `hora` parses back to the time that was saved. |
| Scheduling.NewConfig | main.py:231-234 | The saved configuration holds every form value under its key, and the time as text that reads back as the chosen time. |
| Scheduling.Scheduler.constructor | main.py:60 | A new scheduler has no jobs and is not running. |
| Scheduling.Scheduler.Start | main.py:61 | Only a scheduler that is not running may be started. Starting keeps the jobs and sets it running. |
| Scheduling.SessionScheduler | main.py:59-61 | The session's scheduler is reused when present. Otherwise a new one is created, started and has no jobs. |
| Scheduling.Scheduler.RemoveAllJobs | main.py:238 | Afterwards no job is registered. |
| Scheduling.Scheduler.AddJob | main.py:239-243 | The job is appended to the registered jobs. |
| Scheduling.Scheduler.Status | main.py:250-252 | The robot reads as active exactly when at least one job is registered. The dashboard at line 176 makes the same test. |
| Scheduling.SaveRobot | main.py:231-243 | Whatever was registered before, a save leaves exactly one job. That job is for the new configuration, at the chosen hour and minute, in the chosen timezone. |
| Scheduling.SaveTwice | main.py:238-243 | Two saves in a row leave only the second save's job, and the robot reads as active. |

## Left out

- The Streamlit user interface (main.py:13-27, 160-315) is presentation. The model
  starts at the values the robot form submits.
- Reading and writing `user_config.json` (main.py:50-56, 235) is file I/O. A save
  returns the configuration it would write.
- The shop's HTTP answers, the Gemini model and the webhook are foreign calls.
  They are modelled as functions of their input, so the same request always gets
  the same answer within one model run.
- `time.sleep(2)` is recorded as a pause event. The one-second sleep and the
  rerun after a save are left out.
- The `print` calls and `datetime.now()` (main.py:116, 141) have no effect on the
  logic.
- The APScheduler internals are library behaviour: the background thread, cron
  firing, `next_run_time` (main.py:253-255) and the `pytz` timezone lookup. The
  timezone is kept as its name, and a job records its hour, minute, timezone and
  configuration. Runs that overlap in time are not modelled.
- `generar_alt_text` (main.py:144-148) is a bare model call with a fallback to its
  argument, and no other modelled code calls it.
- The images panel (main.py:274-296) is user interface: it lists ten products
  through `shopify_get`, tabulates `auditoria_seo` for each of them and calls
  `generar_alt_text` for a chosen title. Its loops and tables are not modelled;
  the audit itself is `Seo.AuditSeo`.
- The CRO and marketing panels (main.py:298-315) are placeholders with no logic.
- Shop.Response: a status-200 JSON body is always an object whose keys hold
  lists. A body of another shape (a list, `null`, a string), whose `.get` in
  `get_collections` or `get_products_by_collection` would raise `AttributeError`
  out of the caller and out of a robot run, is not modelled.
- Catalog.Product: JSON `null` for `title`, `handle`, an image `src` or a variant
  `price` is not modelled. Those keys are either present with text or absent.
  `body_html` absent and `null` are the same, as the code's `or ""` makes them.
- Catalog.Collection: the collection id is kept as the text the f-string writes.
  Shopify ids are numbers in the JSON.
- Scheduling.ParseClock: `strptime` also accepts one-digit fields such as `9:05`.
  The model reads only the zero-padded form that `strftime` writes.
- Shop.NormalizeDomain: the contract states the shape of the result. Its exact
  value is stated for a bare domain, and for either scheme followed by a domain
  and any run of trailing slashes. Values with a scheme in the middle or leading
  slashes are not given an exact result.
- Text.RemoveAll: its contract states only that removal never lengthens the
  string. `Text.RemoveAllAbsent`, `Text.RemoveAllMisaligned` and
  `Text.RemoveLeading` state the cases the model relies on.
