/** The SEO audit of one product: a score out of 100 lowered by a fixed penalty
    for each of three failed checks, with one issue recorded per failed check. */
module Seo {

  import opened Wrappers
  import opened Catalog

  const ShortTitle := "Título corto"
  const NoImage := "Sin imagen"
  const PoorDescription := "Descripción pobre"

  datatype Audit = Audit(score: int, issues: seq<string>)

  /** Points an issue costs. */
  function Penalty(issue: string): nat {
    if issue == ShortTitle then 15
    else if issue == NoImage then 30
    else if issue == PoorDescription then 10
    else 0
  }

  /** The points all the listed issues cost together. */
  function TotalPenalty(issues: seq<string>): nat {
    if issues == [] then 0 else Penalty(issues[0]) + TotalPenalty(issues[1..])
  }

  /** The description the audit measures: the body HTML, or "" when it is absent. */
  function Description(p: Product): string {
    p.bodyHtml.GetOr("")
  }

  /** The checks the product fails, each at most once and in the order they are made. */
  function FailedChecks(p: Product, title: string): seq<string> {
    (if |title| < 20 then [ShortTitle] else [])
    + (if p.images == [] then [NoImage] else [])
    + (if |Description(p)| < 100 then [PoorDescription] else [])
  }

  method AuditSeo(p: Product) returns (r: Result<Audit, Fault>)
    ensures p.title.None? <==> r.Failure?
    ensures r.Failure? ==> r.error == MissingKey("title")
    ensures r.Success? ==> r.value.issues == FailedChecks(p, p.title.value)
    ensures r.Success? ==> r.value.score == 100 - TotalPenalty(r.value.issues)
    ensures r.Success? ==>
              r.value.score == 100 - (if |p.title.value| < 20 then 15 else 0)
                                   - (if p.images == [] then 30 else 0)
                                   - (if |Description(p)| < 100 then 10 else 0)
    ensures r.Success? ==> 45 <= r.value.score <= 100
    ensures r.Success? ==> (r.value.issues == [] <==> r.value.score == 100)
  {
    var score := 100;
    var issues: seq<string> := [];
    if p.title.None? {
      return Failure(MissingKey("title"));
    }
    if |p.title.value| < 20 {
      score := score - 15;
      issues := issues + [ShortTitle];
    }
    if p.images == [] {
      score := score - 30;
      issues := issues + [NoImage];
    }
    var desc := Description(p);
    if |desc| < 100 {
      score := score - 10;
      issues := issues + [PoorDescription];
    }
    PenaltyOfFailedChecks(p, p.title.value);
    r := Success(Audit(score, issues));
  }

  /** The score lost is the sum of the penalties of the failed checks. */
  lemma {:induction false} PenaltyOfFailedChecks(p: Product, title: string)
    ensures TotalPenalty(FailedChecks(p, title))
            == (if |title| < 20 then 15 else 0)
             + (if p.images == [] then 30 else 0)
             + (if |Description(p)| < 100 then 10 else 0)
  {
    var a := if |title| < 20 then [ShortTitle] else [];
    var b := if p.images == [] then [NoImage] else [];
    var c := if |Description(p)| < 100 then [PoorDescription] else [];
    TotalPenaltyAppend(a, b + c);
    TotalPenaltyAppend(b, c);
    assert FailedChecks(p, title) == a + (b + c);
    assert TotalPenalty(c) == if c == [] then 0 else 10;
    assert TotalPenalty(b) == if b == [] then 0 else 30;
    assert TotalPenalty(a) == if a == [] then 0 else 15;
  }

  lemma {:induction false} TotalPenaltyAppend(a: seq<string>, b: seq<string>)
    ensures TotalPenalty(a + b) == TotalPenalty(a) + TotalPenalty(b)
  {
    if a != [] {
      assert (a + b)[1..] == a[1..] + b;
      TotalPenaltyAppend(a[1..], b);
    } else {
      assert a + b == b;
    }
  }
}
