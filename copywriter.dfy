/** Promotional copy for one product on one social platform: a per-platform style
    guideline, a prompt for the text-generation model, and a fixed fallback sentence
    when the model call fails in any way. */
module Copywriter {

  import opened Wrappers
  import opened Text
  import opened Catalog

  /** What the text-generation model does with one prompt: it answers with text, or
      the call fails (no key, network, quota, blocked answer, ...). */
  datatype GenReply = Generated(text: string) | GenFailed

  const Instagram := "Instagram"
  const TikTok := "TikTok"
  const LinkedIn := "LinkedIn"
  const Facebook := "Facebook"

  /** The style guideline for a platform: one fixed sentence for each of the four
      supported platforms, nothing for any other. */
  function Guideline(platform: string): (g: string)
    ensures g != "" <==> platform in {Instagram, TikTok, LinkedIn, Facebook}
  {
    if platform == Instagram then "Usa hashtags, emojis visuales."
    else if platform == TikTok then "Guión viral corto, tendencias."
    else if platform == LinkedIn then "Profesional, beneficios."
    else if platform == Facebook then "Comunidad, oferta clara."
    else ""
  }

  /** Different supported platforms get different guidelines. */
  lemma GuidelinesDiffer(a: string, b: string)
    requires a in {Instagram, TikTok, LinkedIn, Facebook}
    requires b in {Instagram, TikTok, LinkedIn, Facebook}
    requires a != b
    ensures Guideline(a) != Guideline(b)
  {
  }

  /** The title the copy uses: the product's own, or "Producto" when it has none. */
  function CopyTitle(p: Product): (title: string)
    ensures p.title.None? ==> title == "Producto"
    ensures p.title.Some? ==> title == p.title.value
  {
    p.title.GetOr("Producto")
  }

  /** The price the copy uses: the first variant's price; "Consultar" when there
      is no variant or the first variant has no price. */
  function CopyPrice(p: Product): (price: string)
    ensures p.variants == [] ==> price == "Consultar"
    ensures p.variants != [] && p.variants[0].price.Some? ==> price == p.variants[0].price.value
    ensures p.variants != [] && p.variants[0].price.None? ==> price == "Consultar"
  {
    if p.variants != [] then p.variants[0].price.GetOr("Consultar") else "Consultar"
  }

  const PromptOpen := "\n    Actúa como Social Media Manager. Escribe un post para "
  const PromptProduct := ".\n    Producto: "
  const PromptPrice := ". Precio: "
  const PromptTone := ".\n    Tono: "
  const PromptGuide := ". Guía: "
  const PromptClose := ".\n    Responde solo con el texto.\n    "

  /** The request sent to the model; each of its five inputs sits at the place the
      fixed wording leaves for it. */
  function Prompt(platform: string, title: string, price: string, tone: string, guide: string)
    : (r: string)
    ensures OccursAt(platform, r, |PromptOpen|)
    ensures OccursAt(title, r, |PromptOpen| + |platform| + |PromptProduct|)
    ensures OccursAt(price, r, |PromptOpen| + |platform| + |PromptProduct| + |title| + |PromptPrice|)
    ensures OccursAt(tone, r, |PromptOpen| + |platform| + |PromptProduct| + |title| + |PromptPrice|
                               + |price| + |PromptTone|)
    ensures OccursAt(guide, r, |PromptOpen| + |platform| + |PromptProduct| + |title| + |PromptPrice|
                                + |price| + |PromptTone| + |tone| + |PromptGuide|)
  {
    Fill(PromptOpen, platform, PromptProduct, title, PromptPrice, price,
         PromptTone, tone, PromptGuide, guide, PromptClose)
  }

  /** Five fields placed between six pieces of fixed wording. */
  function Fill(w0: string, f1: string, w1: string, f2: string, w2: string, f3: string,
                w3: string, f4: string, w4: string, f5: string, w5: string): (r: string)
    ensures |r| == |w0| + |f1| + |w1| + |f2| + |w2| + |f3| + |w3| + |f4| + |w4| + |f5| + |w5|
    ensures OccursAt(f1, r, |w0|)
    ensures OccursAt(f2, r, |w0| + |f1| + |w1|)
    ensures OccursAt(f3, r, |w0| + |f1| + |w1| + |f2| + |w2|)
    ensures OccursAt(f4, r, |w0| + |f1| + |w1| + |f2| + |w2| + |f3| + |w3|)
    ensures OccursAt(f5, r, |w0| + |f1| + |w1| + |f2| + |w2| + |f3| + |w3| + |f4| + |w4|)
  {
    w0 + f1 + w1 + f2 + w2 + f3 + w3 + f4 + w4 + f5 + w5
  }

  const FallbackOpen := "¡Oferta! "
  const FallbackMiddle := " a solo "

  /** The copy used when the model call fails, built from the product data alone:
      never empty, it names the title and the price. */
  function Fallback(title: string, price: string): (r: string)
    ensures r != [] && r[|r| - 1] == '.'
    ensures Contains(r, title) && Contains(r, price)
  {
    var r := FallbackOpen + title + FallbackMiddle + price + ".";
    assert OccursAt(title, r, |FallbackOpen|);
    assert OccursAt(price, r, |FallbackOpen| + |title| + |FallbackMiddle|);
    r
  }

  /** The prompt built for a product on a platform in a tone. */
  function CopyPrompt(p: Product, platform: string, tone: string): string {
    Prompt(platform, CopyTitle(p), CopyPrice(p), tone, Guideline(platform))
  }

  /** The model's text when the call succeeds; otherwise the fallback sentence with
      the product's title and price. The model is asked exactly once. */
  function AdaptiveCopy(p: Product, platform: string, tone: string, gen: string -> GenReply)
    : (r: string)
    ensures gen(CopyPrompt(p, platform, tone)).Generated? ==> r == gen(CopyPrompt(p, platform, tone)).text
    ensures gen(CopyPrompt(p, platform, tone)).GenFailed? ==>
              r == FallbackOpen + CopyTitle(p) + FallbackMiddle + CopyPrice(p) + "."
  {
    match gen(CopyPrompt(p, platform, tone))
    case Generated(text) => text
    case GenFailed => Fallback(CopyTitle(p), CopyPrice(p))
  }

  /** The model that fails on every prompt. */
  function Unavailable(prompt: string): GenReply {
    GenFailed
  }

  /** With a failing model, a product without a title or variants still gets copy. */
  lemma FallbackForBareProduct(platform: string, tone: string)
    ensures AdaptiveCopy(Product(None, None, [], [], None), platform, tone, Unavailable)
            == "¡Oferta! " + "Producto" + " a solo " + "Consultar" + "."
  {
    var bare := Product(None, None, [], [], None);
    assert CopyTitle(bare) == "Producto" && CopyPrice(bare) == "Consultar";
  }

  /** A failing model never leaves the product without copy: the fallback names the
      product's title and its price (or "Consultar"). */
  lemma FailedModelStillGivesCopy(p: Product, platform: string, tone: string)
    ensures var r := AdaptiveCopy(p, platform, tone, Unavailable);
            r != [] && Contains(r, CopyTitle(p)) && Contains(r, CopyPrice(p))
  {
    assert AdaptiveCopy(p, platform, tone, Unavailable) == Fallback(CopyTitle(p), CopyPrice(p));
  }
}
