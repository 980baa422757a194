/** One run of the promotion robot: read the webhook setting, fetch the products of
    the configured collection, draw a random sample of them, and for each drawn
    product ask the model for copy, build the webhook payload and post it, pausing
    after every post that did not raise. What the run does to the outside world is
    recorded as a trace of events. */
module Robot {

  import opened Wrappers
  import opened Text
  import opened Catalog
  import opened Shop
  import opened Copywriter

  /** The saved robot configuration as its JSON document holds it; `None` is a
      missing key. */
  datatype Config = Config(
    plataforma: Option<string>,
    tono: Option<string>,
    collectionId: Option<string>,
    cantidad: Option<int>,
    timezone: Option<string>,
    hora: Option<string>)

  /** The configuration with every key missing. */
  const EmptyConfig := Config(None, None, None, None, None, None)

  function CollectionOf(c: Config): string { c.collectionId.GetOr("all") }
  function CountOf(c: Config): int { c.cantidad.GetOr(1) }
  function PlatformOf(c: Config): string { c.plataforma.GetOr("Instagram") }
  function ToneOf(c: Config): string { c.tono.GetOr("Divertido") }

  /** The process environment: the webhook URL ("" when unset), the raw shop URL
      and the access token. */
  datatype Env = Env(webhook: string, shopUrl: Option<string>, token: Option<string>)

  function ConnectionOf(env: Env): Connection {
    Connection(ShopHost(env.shopUrl), env.token)
  }

  datatype Payload = Payload(
    plataforma: string,
    titulo: string,
    texto: string,
    imagen: string,
    precio: string,
    url: string)

  /** What `requests.post` does with one payload. Any status is an answer: only an
      exception counts as a failure. */
  datatype PostResult = Delivered(status: int) | PostRaised

  /** An effect of the run on the outside world: the catalogue request, a call of the
      text-generation model, a post to the webhook and its result, a pause. */
  datatype Event =
    | Fetched(request: Request)
    | Asked(prompt: string)
    | Posted(webhook: string, payload: Payload, result: PostResult)
    | Paused(seconds: nat)

  /** How a run ends: it returns, or an exception escapes it. */
  datatype Exit = Returned | Raised(fault: Fault)

  datatype Run = Run(events: seq<Event>, exit: Exit)

  /** What one run works with besides the product itself. The copywriter reaches
      the loop as two functions of the product, fixed for the run: the prompt it
      sends and the copy it returns. */
  datatype Context = Context(
    webhook: string,
    host: string,
    platform: string,
    prompt: Product -> string,
    copy: Product -> string,
    deliver: (string, Payload) -> PostResult)

  function ContextOf(env: Env, config: Config, gen: string -> GenReply,
                     deliver: (string, Payload) -> PostResult): (ctx: Context)
    ensures forall p :: ctx.prompt(p) == CopyPrompt(p, PlatformOf(config), ToneOf(config))
    ensures forall p :: ctx.copy(p) == AdaptiveCopy(p, PlatformOf(config), ToneOf(config), gen)
    ensures ctx.platform == PlatformOf(config) && ctx.webhook == env.webhook
    ensures ctx.host == ShopHost(env.shopUrl) && ctx.deliver == deliver
  {
    var platform, tone := PlatformOf(config), ToneOf(config);
    Context(env.webhook, ShopHost(env.shopUrl), platform,
            p => CopyPrompt(p, platform, tone), p => AdaptiveCopy(p, platform, tone, gen), deliver)
  }

  const PacingSeconds: nat := 2

  /** The public page of a product. */
  function ProductUrl(host: string, handle: string): (url: string)
    ensures |url| == 18 + |host| + |handle|
    ensures OccursAt("https://", url, 0) && OccursAt(host, url, 8)
    ensures OccursAt("/products/", url, 8 + |host|) && OccursAt(handle, url, |url| - |handle|)
  {
    var url := "https://" + host + "/products/" + handle;
    assert OccursAt("https://", url, 0) && OccursAt(host, url, 8);
    assert OccursAt("/products/", url, 8 + |host|);
    url
  }

  /** A product whose payload can be built: every key read with `d[key]` is there. */
  predicate Postable(p: Product) {
    && (p.images == [] || p.images[0].src.Some?)
    && p.handle.Some?
    && (p.variants == [] || p.variants[0].price.Some?)
    && p.title.Some?
  }

  /** The key whose `KeyError` a product that is not postable raises: the first one
      missing in the order the payload's parts are computed (image, link, price,
      title). */
  function FirstMissing(p: Product): (f: Fault)
    requires !Postable(p)
    ensures f.MissingKey?
  {
    if p.images != [] && p.images[0].src.None? then MissingKey("src")
    else if p.handle.None? then MissingKey("handle")
    else if p.variants != [] && p.variants[0].price.None? then MissingKey("price")
    else MissingKey("title")
  }

  /** The webhook payload for a product, or the `KeyError` of the first missing key
      in the order the payload's parts are computed: image, link, price, title. */
  function BuildPayload(p: Product, platform: string, copy: string, host: string)
    : (r: Result<Payload, Fault>)
    ensures r.Success? <==> Postable(p)
    ensures r.Success? ==>
              && r.value.plataforma == platform
              && r.value.titulo == p.title.value
              && r.value.texto == copy
              && r.value.imagen == (if p.images == [] then "" else p.images[0].src.value)
              && r.value.precio == (if p.variants == [] then "" else p.variants[0].price.value)
              && r.value.url == ProductUrl(host, p.handle.value)
    ensures r.Failure? ==> r.error == FirstMissing(p)
  {
    if p.images != [] && p.images[0].src.None? then Failure(MissingKey("src"))
    else
      var img := if p.images != [] then p.images[0].src.value else "";
      if p.handle.None? then Failure(MissingKey("handle"))
      else
        var link := ProductUrl(host, p.handle.value);
        if p.variants != [] && p.variants[0].price.None? then Failure(MissingKey("price"))
        else
          var precio := if p.variants != [] then p.variants[0].price.value else "";
          if p.title.None? then Failure(MissingKey("title"))
          else Success(Payload(platform, p.title.value, copy, img, precio, link))
  }

  /** The price the copy quotes and the price the payload carries agree whenever the
      product has a priced first variant; without variants the copy says "Consultar"
      and the payload carries "". */
  lemma CopyAndPayloadPrices(p: Product, platform: string, copy: string, host: string)
    requires Postable(p)
    ensures var pl := BuildPayload(p, platform, copy, host).value;
            (p.variants != [] ==> CopyPrice(p) == pl.precio)
            && (p.variants == [] ==> CopyPrice(p) == "Consultar" && pl.precio == "")
  {
  }

  /** The payload a postable product gets in a run. */
  function PayloadFor(p: Product, ctx: Context): Payload
    requires Postable(p)
  {
    BuildPayload(p, ctx.platform, ctx.copy(p), ctx.host).value
  }

  /** The events of one loop iteration and the exception that ends it, if any: the
      model is asked for copy, then the payload is built and posted, and a pause
      follows a post that did not raise. */
  function ItemEvents(p: Product, ctx: Context): (seq<Event>, Option<Fault>) {
    var asked := Asked(ctx.prompt(p));
    var copy := ctx.copy(p);
    match BuildPayload(p, ctx.platform, copy, ctx.host)
    case Failure(f) => ([asked], Some(f))
    case Success(payload) =>
      var result := ctx.deliver(ctx.webhook, payload);
      var posted := Posted(ctx.webhook, payload, result);
      var events := [asked] + [posted];
      (if result.PostRaised? then events else events + [Paused(PacingSeconds)], None)
  }

  /** The loop over the selection, as a specification: items in order, stopping at
      the first exception that escapes an item. */
  function SelectionEvents(sel: seq<Product>, ctx: Context): Run
    decreases |sel|
  {
    if sel == [] then Run([], Returned)
    else
      var (ev, fault) := ItemEvents(sel[0], ctx);
      if fault.Some? then Run(ev, Raised(fault.value))
      else
        var rest := SelectionEvents(sel[1..], ctx);
        Run(ev + rest.events, rest.exit)
  }

  /** `picks` is what `random.sample` may return for a population of `n` and a
      sample size of `k`: `k` distinct positions of the population. */
  predicate IsSample(picks: seq<nat>, n: nat, k: nat) {
    && |picks| == k
    && (forall i :: 0 <= i < k ==> picks[i] < n)
    && (forall i, j :: 0 <= i < j < k ==> picks[i] != picks[j])
  }

  /** Every sample size up to the population size can be drawn. */
  lemma SampleExists(n: nat, k: nat)
    requires k <= n
    ensures IsSample(seq(k, i => i), n, k)
  {
  }

  /** `random.sample(range(n), k)`: which positions are drawn is not determined. */
  method Sample(n: nat, k: nat) returns (picks: seq<nat>)
    requires k <= n
    ensures IsSample(picks, n, k)
  {
    SampleExists(n, k);
    picks :| IsSample(picks, n, k);
  }

  /** The products at the drawn positions, in the order drawn. */
  function Pick(prods: seq<Product>, picks: seq<nat>): (sel: seq<Product>)
    requires forall i :: 0 <= i < |picks| ==> picks[i] < |prods|
    ensures |sel| == |picks|
    ensures forall i :: 0 <= i < |picks| ==> sel[i] == prods[picks[i]]
  {
    seq(|picks|, i requires 0 <= i < |picks| => prods[picks[i]])
  }

  /** The request for the configured collection's products. */
  function ProductsRequest(env: Env, config: Config): Request {
    GetRequest(ConnectionOf(env), ProductsEndpoint(CollectionOf(config), DefaultLimit))
  }

  /** The products the run sees. */
  function Catalogue(env: Env, config: Config, fetch: Request -> Response<Product>): seq<Product> {
    GetProductsByCollection(ConnectionOf(env), CollectionOf(config), DefaultLimit, fetch)
  }

  /** `min(cantidad, len(prods))`. */
  function SampleSize(config: Config, n: nat): int {
    if CountOf(config) < n then CountOf(config) else n
  }

  /** The draw a run makes: nothing when it stops before sampling, otherwise a sample
      of the configured size from the catalogue. */
  predicate ValidDraw(env: Env, config: Config, fetch: Request -> Response<Product>, picks: seq<nat>) {
    var prods := Catalogue(env, config, fetch);
    if env.webhook == "" || prods == [] || SampleSize(config, |prods|) < 0 then picks == []
    else IsSample(picks, |prods|, SampleSize(config, |prods|))
  }

  /** A whole run, as a specification, given the draw `random.sample` made. */
  function RunEvents(env: Env, config: Config, fetch: Request -> Response<Product>,
                     gen: string -> GenReply, deliver: (string, Payload) -> PostResult,
                     picks: seq<nat>): (r: Run)
    requires ValidDraw(env, config, fetch, picks)
    ensures env.webhook == "" ==> r == Run([], Returned)
    ensures env.webhook != "" ==> r.events != [] && r.events[0] == Fetched(ProductsRequest(env, config))
    ensures env.webhook != "" && Catalogue(env, config, fetch) == [] ==>
              r == Run([Fetched(ProductsRequest(env, config))], Returned)
  {
    if env.webhook == "" then Run([], Returned)
    else
      var fetched := Fetched(ProductsRequest(env, config));
      var prods := Catalogue(env, config, fetch);
      if prods == [] then Run([fetched], Returned)
      else if SampleSize(config, |prods|) < 0 then Run([fetched], Raised(NegativeSampleSize))
      else
        var rest := SelectionEvents(Pick(prods, picks), ContextOf(env, config, gen, deliver));
        Run([fetched] + rest.events, rest.exit)
  }

  /** One run of the robot with the given configuration. */
  method PublishRun(env: Env, config: Config, fetch: Request -> Response<Product>,
                    gen: string -> GenReply, deliver: (string, Payload) -> PostResult)
    returns (exit: Exit, picks: seq<nat>, trace: seq<Event>)
    ensures ValidDraw(env, config, fetch, picks)
    ensures Run(trace, exit) == RunEvents(env, config, fetch, gen, deliver, picks)
  {
    picks, trace, exit := [], [], Returned;
    if env.webhook == "" {
      return;
    }
    var conn := ConnectionOf(env);
    var colId := CollectionOf(config);
    var prods := GetProductsByCollection(conn, colId, DefaultLimit, fetch);
    trace := [Fetched(GetRequest(conn, ProductsEndpoint(colId, DefaultLimit)))];
    if prods == [] {
      return;
    }
    var cantidad := CountOf(config);
    var k := if cantidad < |prods| then cantidad else |prods|;
    if k < 0 {
      exit := Raised(NegativeSampleSize);
      return;
    }
    picks := Sample(|prods|, k);
    var seleccion := Pick(prods, picks);
    var events;
    events, exit := PublishSelection(seleccion, ContextOf(env, config, gen, deliver));
    trace := trace + events;
  }

  /** The loop over the drawn products: each gets its copy, its payload and its post,
      a post that raises is swallowed, and an exception while building a payload
      ends the run. */
  method PublishSelection(seleccion: seq<Product>, ctx: Context)
    returns (events: seq<Event>, exit: Exit)
    ensures Run(events, exit) == SelectionEvents(seleccion, ctx)
  {
    events, exit := [], Returned;
    var i := 0;
    while i < |seleccion|
      invariant 0 <= i <= |seleccion|
      invariant SelectionEvents(seleccion, ctx)
                == Run(events + SelectionEvents(seleccion[i..], ctx).events,
                       SelectionEvents(seleccion[i..], ctx).exit)
    {
      ghost var done := events;
      SelectionUnfold(seleccion, i, ctx);
      var ev, fault := PublishItem(seleccion[i], ctx);
      events := events + ev;
      if fault.Some? {
        exit := Raised(fault.value);
        return;
      }
      assert events + SelectionEvents(seleccion[i + 1..], ctx).events
             == done + (ev + SelectionEvents(seleccion[i + 1..], ctx).events);
      i := i + 1;
    }
  }

  /** The body of the loop for one product: ask the model for copy, build the payload,
      post it, and pause when the post did not raise. */
  method PublishItem(p: Product, ctx: Context) returns (ev: seq<Event>, fault: Option<Fault>)
    ensures (ev, fault) == ItemEvents(p, ctx)
  {
    var asked := Asked(ctx.prompt(p));
    var copy := ctx.copy(p);
    ev := [asked];
    var built := BuildPayload(p, ctx.platform, copy, ctx.host);
    if built.Failure? {
      return ev, Some(built.error);
    }
    var result := ctx.deliver(ctx.webhook, built.value);
    ev := ev + [Posted(ctx.webhook, built.value, result)];
    if !result.PostRaised? {
      ev := ev + [Paused(PacingSeconds)];
    }
    fault := None;
  }

  /** An item always asks the model first; a postable item then posts its payload
      and pauses unless the post raised, and any other item raises the `KeyError`
      of its first missing key. */
  lemma ItemEventsShape(p: Product, ctx: Context)
    ensures var (ev, fault) := ItemEvents(p, ctx);
            && (Postable(p) ==>
                  var result := ctx.deliver(ctx.webhook, PayloadFor(p, ctx));
                  && ev == [Asked(ctx.prompt(p)), Posted(ctx.webhook, PayloadFor(p, ctx), result)]
                           + (if result.PostRaised? then [] else [Paused(PacingSeconds)])
                  && fault == None)
            && (!Postable(p) ==> ev == [Asked(ctx.prompt(p))] && fault == Some(FirstMissing(p)))
  {
    if Postable(p) {
      var payload := PayloadFor(p, ctx);
      var result := ctx.deliver(ctx.webhook, payload);
      assert [Asked(ctx.prompt(p))] + [Posted(ctx.webhook, payload, result)]
             == [Asked(ctx.prompt(p)), Posted(ctx.webhook, payload, result)];
    }
  }

  /** One step of the loop specification: the events of item `i`, then the rest
      unless item `i` raised. */
  lemma SelectionUnfold(sel: seq<Product>, i: nat, ctx: Context)
    requires i < |sel|
    ensures var (ev, fault) := ItemEvents(sel[i], ctx);
            SelectionEvents(sel[i..], ctx)
              == if fault.Some? then Run(ev, Raised(fault.value))
                 else Run(ev + SelectionEvents(sel[i + 1..], ctx).events,
                          SelectionEvents(sel[i + 1..], ctx).exit)
  {
    assert sel[i..][0] == sel[i] && sel[i..][1..] == sel[i + 1..];
  }

  /** The payloads posted in a trace, in order. */
  function Posts(events: seq<Event>): (r: seq<Payload>)
    ensures |r| <= |events|
  {
    if events == [] then []
    else (if events[0].Posted? then [events[0].payload] else []) + Posts(events[1..])
  }

  /** The prompts sent to the model in a trace, in order. */
  function Prompts(events: seq<Event>): (r: seq<string>)
    ensures |r| <= |events|
  {
    if events == [] then []
    else (if events[0].Asked? then [events[0].prompt] else []) + Prompts(events[1..])
  }

  lemma {:induction false} PostsAppend(a: seq<Event>, b: seq<Event>)
    ensures Posts(a + b) == Posts(a) + Posts(b)
    decreases |a|
  {
    if a != [] {
      assert (a + b)[0] == a[0] && (a + b)[1..] == a[1..] + b;
      PostsAppend(a[1..], b);
    } else {
      assert a + b == b;
    }
  }

  lemma {:induction false} PromptsAppend(a: seq<Event>, b: seq<Event>)
    ensures Prompts(a + b) == Prompts(a) + Prompts(b)
    decreases |a|
  {
    if a != [] {
      assert (a + b)[0] == a[0] && (a + b)[1..] == a[1..] + b;
      PromptsAppend(a[1..], b);
    } else {
      assert a + b == b;
    }
  }

  /** The drawn products the loop gets through without an exception: the longest
      prefix of postable products. */
  function PostablePrefix(sel: seq<Product>): (r: seq<Product>)
    ensures |r| <= |sel| && r == sel[..|r|]
    ensures forall i :: 0 <= i < |r| ==> Postable(r[i])
    ensures |r| < |sel| ==> !Postable(sel[|r|])
    decreases |sel|
  {
    if sel == [] || !Postable(sel[0]) then [] else [sel[0]] + PostablePrefix(sel[1..])
  }

  /** How many drawn products the loop starts on: the postable prefix, and the
      product that raises after it, if any. */
  function Processed(sel: seq<Product>): (n: nat)
    ensures n <= |sel|
  {
    var k := |PostablePrefix(sel)|;
    if k < |sel| then k + 1 else k
  }

  /** The payloads of postable products, in order. */
  function PayloadsFor(items: seq<Product>, ctx: Context): (r: seq<Payload>)
    requires forall i :: 0 <= i < |items| ==> Postable(items[i])
    ensures |r| == |items|
    ensures forall i :: 0 <= i < |items| ==> r[i] == PayloadFor(items[i], ctx)
    decreases |items|
  {
    if items == [] then [] else [PayloadFor(items[0], ctx)] + PayloadsFor(items[1..], ctx)
  }

  /** The prompts of products, in order. */
  function PromptsFor(items: seq<Product>, ctx: Context): (r: seq<string>)
    ensures |r| == |items|
    ensures forall i :: 0 <= i < |items| ==> r[i] == ctx.prompt(items[i])
    decreases |items|
  {
    if items == [] then [] else [ctx.prompt(items[0])] + PromptsFor(items[1..], ctx)
  }

  /** One item posts its own payload when it is postable and nothing otherwise, and
      it asks the model exactly once. */
  lemma ItemProjections(p: Product, ctx: Context)
    ensures Posts(ItemEvents(p, ctx).0) == if Postable(p) then [PayloadFor(p, ctx)] else []
    ensures Prompts(ItemEvents(p, ctx).0) == [ctx.prompt(p)]
  {
    ItemEventsShape(p, ctx);
    var ev := ItemEvents(p, ctx).0;
    if Postable(p) {
      var payload := PayloadFor(p, ctx);
      var result := ctx.deliver(ctx.webhook, payload);
      var posted := [Posted(ctx.webhook, payload, result)];
      var pause: seq<Event> := if result.PostRaised? then [] else [Paused(PacingSeconds)];
      assert ev == [Asked(ctx.prompt(p))] + (posted + pause);
      PostsAppend([Asked(ctx.prompt(p))], posted + pause);
      PostsAppend(posted, pause);
      PromptsAppend([Asked(ctx.prompt(p))], posted + pause);
      PromptsAppend(posted, pause);
      assert Posts(pause) == [] && Prompts(pause) == [];
    }
  }

  /** The postable prefix and the processed count of a selection, from those of its
      tail. */
  lemma PrefixStep(sel: seq<Product>)
    requires sel != []
    ensures Postable(sel[0]) ==>
              && PostablePrefix(sel) == [sel[0]] + PostablePrefix(sel[1..])
              && Processed(sel) == Processed(sel[1..]) + 1
              && sel[..Processed(sel)] == [sel[0]] + sel[1..][..Processed(sel[1..])]
    ensures !Postable(sel[0]) ==> PostablePrefix(sel) == [] && sel[..Processed(sel)] == [sel[0]]
  {
  }

  /** Exactly one payload is posted per product of the postable prefix, in the order
      drawn, and nothing else is posted. */
  lemma {:induction false} SelectionPosts(sel: seq<Product>, ctx: Context)
    ensures Posts(SelectionEvents(sel, ctx).events) == PayloadsFor(PostablePrefix(sel), ctx)
    decreases |sel|
  {
    if sel != [] {
      ItemProjections(sel[0], ctx);
      PrefixStep(sel);
      if Postable(sel[0]) {
        SelectionPosts(sel[1..], ctx);
        PostsAppend(ItemEvents(sel[0], ctx).0, SelectionEvents(sel[1..], ctx).events);
      }
    }
  }

  /** The model is asked once for every product the loop starts on, in order. */
  lemma {:induction false} SelectionPrompts(sel: seq<Product>, ctx: Context)
    ensures Prompts(SelectionEvents(sel, ctx).events) == PromptsFor(sel[..Processed(sel)], ctx)
    decreases |sel|
  {
    if sel != [] {
      ItemProjections(sel[0], ctx);
      PrefixStep(sel);
      if Postable(sel[0]) {
        SelectionPrompts(sel[1..], ctx);
        PromptsAppend(ItemEvents(sel[0], ctx).0, SelectionEvents(sel[1..], ctx).events);
      }
    }
  }

  /** The loop returns exactly when every drawn product is postable; otherwise the
      `KeyError` of the first product that is not escapes it. */
  lemma {:induction false} SelectionExit(sel: seq<Product>, ctx: Context)
    ensures var n := |PostablePrefix(sel)|;
            && (n == |sel| ==> SelectionEvents(sel, ctx).exit == Returned)
            && (n < |sel| ==> SelectionEvents(sel, ctx).exit == Raised(FirstMissing(sel[n])))
    decreases |sel|
  {
    if sel != [] {
      ItemEventsShape(sel[0], ctx);
      if Postable(sel[0]) {
        SelectionExit(sel[1..], ctx);
        assert PostablePrefix(sel) == [sel[0]] + PostablePrefix(sel[1..]);
      }
    }
  }

  /** The pacing rule of a trace: every pause directly follows a post that did not
      raise, and every such post is directly followed by a pause of two seconds. */
  predicate Paced(events: seq<Event>) {
    && (forall j :: 0 <= j < |events| && events[j].Paused? ==>
          0 < j && events[j - 1].Posted? && !events[j - 1].result.PostRaised?)
    && (forall j :: 0 <= j < |events| && events[j].Posted? && !events[j].result.PostRaised? ==>
          j + 1 < |events| && events[j + 1] == Paused(PacingSeconds))
  }

  /** Two paced traces stay paced when the second does not start with a pause. */
  lemma PacedAppend(a: seq<Event>, b: seq<Event>)
    requires Paced(a) && Paced(b)
    requires b == [] || !b[0].Paused?
    ensures Paced(a + b)
  {
    var e := a + b;
    forall j | 0 <= j < |e| && e[j].Paused?
      ensures 0 < j && e[j - 1].Posted? && !e[j - 1].result.PostRaised?
    {
      if j >= |a| {
        assert e[j] == b[j - |a|];
        assert e[j - 1] == b[j - |a| - 1];
      }
    }
    forall j | 0 <= j < |e| && e[j].Posted? && !e[j].result.PostRaised?
      ensures j + 1 < |e| && e[j + 1] == Paused(PacingSeconds)
    {
      if j >= |a| {
        assert e[j] == b[j - |a|];
        assert e[j + 1] == b[j + 1 - |a|];
      }
    }
  }

  /** The loop's trace is paced, and it starts by asking the model. */
  lemma {:induction false} SelectionPaced(sel: seq<Product>, ctx: Context)
    ensures var events := SelectionEvents(sel, ctx).events;
            Paced(events) && (events == [] || events[0].Asked?)
    decreases |sel|
  {
    if sel != [] {
      var p := sel[0];
      ItemEventsShape(p, ctx);
      var (ev, fault) := ItemEvents(p, ctx);
      assert Paced(ev);
      if Postable(p) {
        SelectionPaced(sel[1..], ctx);
        PacedAppend(ev, SelectionEvents(sel[1..], ctx).events);
      }
    }
  }

  /** Without a webhook, with an empty catalogue or with a negative count a run posts
      nothing; otherwise it posts one payload per drawn product of the postable
      prefix of the draw, in the order drawn. */
  lemma RunPosts(env: Env, config: Config, fetch: Request -> Response<Product>,
                 gen: string -> GenReply, deliver: (string, Payload) -> PostResult,
                 picks: seq<nat>)
    requires ValidDraw(env, config, fetch, picks)
    ensures var run := RunEvents(env, config, fetch, gen, deliver, picks);
            var prods := Catalogue(env, config, fetch);
            && (env.webhook == "" || prods == [] || CountOf(config) < 0 ==> Posts(run.events) == [])
            && (env.webhook != "" && prods != [] && CountOf(config) >= 0 ==>
                  Posts(run.events)
                  == PayloadsFor(PostablePrefix(Pick(prods, picks)), ContextOf(env, config, gen, deliver)))
  {
    var run := RunEvents(env, config, fetch, gen, deliver, picks);
    var prods := Catalogue(env, config, fetch);
    if env.webhook != "" {
      var fetched := Fetched(ProductsRequest(env, config));
      assert Posts([fetched]) == [];
      if prods != [] && CountOf(config) >= 0 {
        var ctx := ContextOf(env, config, gen, deliver);
        var rest := SelectionEvents(Pick(prods, picks), ctx);
        PostsAppend([fetched], rest.events);
        SelectionPosts(Pick(prods, picks), ctx);
      }
    }
  }

  /** When every product of the catalogue is postable, a run with a webhook and a
      non-negative count returns normally after posting exactly `min(cantidad, n)`
      payloads. */
  lemma RunPostsSample(env: Env, config: Config, fetch: Request -> Response<Product>,
                       gen: string -> GenReply, deliver: (string, Payload) -> PostResult,
                       picks: seq<nat>)
    requires ValidDraw(env, config, fetch, picks)
    requires env.webhook != "" && Catalogue(env, config, fetch) != [] && CountOf(config) >= 0
    requires var prods := Catalogue(env, config, fetch);
             forall i :: 0 <= i < |prods| ==> Postable(prods[i])
    ensures var run := RunEvents(env, config, fetch, gen, deliver, picks);
            var prods := Catalogue(env, config, fetch);
            var posts := Posts(run.events);
            run.exit == Returned && |posts| == SampleSize(config, |prods|)
  {
    var prods := Catalogue(env, config, fetch);
    var sel := Pick(prods, picks);
    var ctx := ContextOf(env, config, gen, deliver);
    var run := RunEvents(env, config, fetch, gen, deliver, picks);
    assert run.exit == SelectionEvents(sel, ctx).exit;
    RunPosts(env, config, fetch, gen, deliver, picks);
    AllPostable(sel, ctx);
  }

  /** A draw of postable products is posted in full and the loop returns. */
  lemma AllPostable(sel: seq<Product>, ctx: Context)
    requires forall i :: 0 <= i < |sel| ==> Postable(sel[i])
    ensures PostablePrefix(sel) == sel
    ensures SelectionEvents(sel, ctx).exit == Returned
  {
    SelectionExit(sel, ctx);
  }

  /** A run with the empty configuration lists the whole catalogue with a page size
      of 50. */
  lemma DefaultRequest(env: Env)
    ensures ProductsRequest(env, EmptyConfig).url
            == AdminUrl(ShopHost(env.shopUrl), ProductsEndpoint("all", 50))
  {
  }

  /** Without `cantidad` in the configuration, a run over a non-empty, postable
      catalogue posts exactly one payload. */
  lemma DefaultCountRun(env: Env, config: Config, fetch: Request -> Response<Product>,
                        gen: string -> GenReply, deliver: (string, Payload) -> PostResult,
                        picks: seq<nat>)
    requires config.cantidad.None?
    requires ValidDraw(env, config, fetch, picks)
    requires env.webhook != "" && Catalogue(env, config, fetch) != []
    requires var prods := Catalogue(env, config, fetch);
             forall i :: 0 <= i < |prods| ==> Postable(prods[i])
    ensures |Posts(RunEvents(env, config, fetch, gen, deliver, picks).events)| == 1
  {
    RunPostsSample(env, config, fetch, gen, deliver, picks);
  }

  /** Every payload a loop posts names the run's platform and carries the copy
      written for its product; without `plataforma` in the configuration the
      platform is Instagram. */
  lemma PostsCarryPlatform(sel: seq<Product>, ctx: Context)
    ensures var posts := Posts(SelectionEvents(sel, ctx).events);
            forall i :: 0 <= i < |posts| ==>
              i < |sel| && posts[i].plataforma == ctx.platform && posts[i].texto == ctx.copy(sel[i])
  {
    SelectionPosts(sel, ctx);
  }

  /** A configuration without `plataforma` posts for Instagram, and one without
      `tono` asks for copy in the "Divertido" tone. */
  lemma DefaultStyle(env: Env, config: Config, gen: string -> GenReply,
                     deliver: (string, Payload) -> PostResult)
    ensures var ctx := ContextOf(env, config, gen, deliver);
            && (config.plataforma.None? ==> ctx.platform == "Instagram")
            && (config.tono.None? ==>
                  forall p :: ctx.copy(p) == AdaptiveCopy(p, ctx.platform, "Divertido", gen))
  {
  }
}
