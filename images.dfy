/** The slug-to-image tables: industries and solutions fall back to a default
    picture, blogs and case studies have no default (`undefined`). */
module Images {
  import opened Wrappers
  import opened Content
  import opened FallbackData

  const IndustryImages: map<string, string> := map[
    "healthcare-pharmaceuticals" := "/Images/industries/Healthcare%20&%20Pharmaceuticals.png",
    "finance-banking" := "/Images/industries/Finance%20&%20Banking.png",
    "education-e-learning" := "/Images/industries/Education%20&%20E-Learning.png",
    "e-commerce-retail" := "/Images/industries/E-Commerce%20&%20Retail2.png",
    "manufacturing-supply-chain" := "/Images/industries/Manufacturing.png",
    "real-estate-construction" := "/Images/industries/Real%20Estate%20&%20Construction%20(3).png",
    "logistics-transportation" := "/Images/industries/Logistic.png",
    "travel-hospitality" := "/Images/industries/Travel%20&%20Hospitality.png",
    "entertainment-media" := "/Images/industries/entertrainment.png",
    "government-public-sector" := "/images/industries/goverment and public.png"]

  const DefaultIndustryImage := "/Images/industries/default-industry.jpg"

  /** `getIndustryImage`: the mapped picture, or the default for any other slug. */
  function IndustryImage(slug: string): (r: string)
    ensures r != ""
    ensures slug in IndustryImages ==> r == IndustryImages[slug]
    ensures slug !in IndustryImages ==> r == DefaultIndustryImage
  {
    if slug in IndustryImages && IndustryImages[slug] != "" then IndustryImages[slug]
    else DefaultIndustryImage
  }

  const SolutionImages: map<string, string> := map[
    "software-development" := "/images/solutions/software-development.jpg",
    "web-development" := "/images/solutions/web-development.jpg",
    "app-development" := "/images/solutions/app-development.jpg",
    "digital-marketing" := "/images/solutions/digital-marketing.png",
    "seo" := "/images/solutions/seo.png",
    "data-analytics" := "/images/solutions/data-analytics.png",
    "ui-ux-design" := "/images/solutions/ui-ux-design.jpg"]

  const DefaultSolutionImage := "/images/solutions/default-solutions.jpg"

  /** `getSolutionImage`: the mapped picture, or the default for any other slug. */
  function SolutionImage(slug: string): (r: string)
    ensures r != ""
    ensures slug in SolutionImages ==> r == SolutionImages[slug]
    ensures slug !in SolutionImages ==> r == DefaultSolutionImage
  {
    if slug in SolutionImages && SolutionImages[slug] != "" then SolutionImages[slug]
    else DefaultSolutionImage
  }

  const BlogImages: map<string, string> := map[
    "future-of-web-development" := "/images/blogs/future-web-dev.jpeg",
    "why-ui-ux-matters" := "/images/blogs/ui-ux-design.png",
    "scaling-with-custom-software" := "/images/blogs/custom-software.jpeg"]

  /** `getBlogImages`: the mapped picture, or `undefined`. */
  function BlogImage(slug: string): (r: Option<string>)
    ensures r.Some? <==> slug in BlogImages
    ensures r.Some? ==> r.value == BlogImages[slug]
  {
    if slug in BlogImages then Some(BlogImages[slug]) else None
  }

  const CaseStudyImages: map<string, string> := map[
    "ecommerce-boost" := "/images/case-studies/real-time.jpeg",
    "superstore-sales-performance-dashboard" := "/images/case-studies/superstore-sales-performance-dashboard.jpeg",
    "healthcare-platform" := "/images/case-studies/telemedicine-platform.png",
    "fintech-dashboard" := "/images/case-studies/fintech-dashboard.png"]

  /** `caseStudyImage`: the mapped picture, or `undefined`. */
  function CaseStudyImage(slug: string): (r: Option<string>)
    ensures r.Some? <==> slug in CaseStudyImages
    ensures r.Some? ==> r.value == CaseStudyImages[slug]
  {
    if slug in CaseStudyImages then Some(CaseStudyImages[slug]) else None
  }

  /** Every Industries entry of the fallback menu has its own picture. */
  lemma IndustryMenuHasImages()
    ensures forall it :: it in FallbackMenus[1].items ==>
      it.slug in IndustryImages && IndustryImage(it.slug) == IndustryImages[it.slug]
  {
    var slugs := ["e-commerce-retail", "healthcare-pharmaceuticals", "finance-banking", "education-e-learning",
                  "real-estate-construction", "travel-hospitality", "manufacturing-supply-chain",
                  "entertainment-media", "logistics-transportation", "government-public-sector"];
    assert forall it :: it in FallbackMenus[1].items ==> it.slug in slugs;
    assert forall s :: s in slugs ==> s in IndustryImages;
  }

  /** Keys are matched exactly: a differently cased slug gets the default. */
  lemma IndustryLookupIsExact()
    ensures IndustryImage("finance-banking") == "/Images/industries/Finance%20&%20Banking.png"
    ensures IndustryImage("Finance-Banking") == DefaultIndustryImage
  {
    assert "Finance-Banking"[0] == 'F';
  }

  /** The menu's `seo-ai-optimization` and `graphics-design` entries have no
      key of their own (only `seo` is mapped) and get the default picture; the
      other six Solutions entries have theirs. */
  lemma SolutionMenuImages()
    ensures SolutionImage("seo-ai-optimization") == DefaultSolutionImage
    ensures SolutionImage("graphics-design") == DefaultSolutionImage
    ensures SolutionImage("seo") == "/images/solutions/seo.png"
    ensures forall it :: it in FallbackMenus[0].items && it.slug != "seo-ai-optimization" && it.slug != "graphics-design" ==>
      it.slug in SolutionImages
  {
  }

  /** Each fallback blog's slug maps to exactly that blog's own `image`. */
  lemma BlogImagesMatchFallback(loadedAt: string)
    ensures forall b :: b in FallbackBlogs(loadedAt) ==> BlogImage(b.slug) == b.image
  {
  }

  /** Both fallback case studies' slugs map to their own `image`; two further
      slugs have pictures but no fallback record. */
  lemma CaseStudyImagesMatchFallback()
    ensures forall c :: c in FallbackCaseStudies ==> CaseStudyImage(c.slug) == c.image
    ensures CaseStudyImage("healthcare-platform") == Some("/images/case-studies/telemedicine-platform.png")
    ensures CaseStudyImage("fintech-dashboard") == Some("/images/case-studies/fintech-dashboard.png")
    ensures forall c :: c in FallbackCaseStudies ==> c.slug != "healthcare-platform" && c.slug != "fintech-dashboard"
  {
  }
}
