/** The static content served when the backend is unreachable or returns
    nothing. The blogs' `publishedAt` is the time the module was loaded,
    passed in as `loadedAt`. Paragraph-length copy is named at the end of the
    module so that the records stay readable. */
module FallbackData {
  import opened Wrappers
  import opened Content

  /** A menu entry whose `href` is the section path followed by its slug. */
  function MenuLink(section: string, labelText: string, slug: string): MenuItem {
    MenuItem(labelText, section + slug, slug, None)
  }

  const SolutionsMenu: MenuGroup :=
    MenuGroup(None, "solutions-menu", "Solutions",
      [MenuLink("/solutions/", "Software Development", "software-development"),
       MenuLink("/solutions/", "Web Development", "web-development"),
       MenuLink("/solutions/", "App Development", "app-development"),
       MenuLink("/solutions/", "Data Analytics", "data-analytics"),
       MenuLink("/solutions/", "Digital Marketing", "digital-marketing"),
       MenuLink("/solutions/", "SEO & AI Optimization", "seo-ai-optimization"),
       MenuLink("/solutions/", "UI/UX Design", "ui-ux-design"),
       MenuLink("/solutions/", "Graphics Design", "graphics-design")],
      None, None)

  const IndustriesMenu: MenuGroup :=
    MenuGroup(None, "industries-menu", "Industries",
      [MenuLink("/industries/", "E-Commerce & Retail", "e-commerce-retail"),
       MenuLink("/industries/", "Healthcare & Pharmaceuticals", "healthcare-pharmaceuticals"),
       MenuLink("/industries/", "Finance & Banking", "finance-banking"),
       MenuLink("/industries/", "Education & E-Learning", "education-e-learning"),
       MenuLink("/industries/", "Real Estate & Construction", "real-estate-construction"),
       MenuLink("/industries/", "Travel & Hospitality", "travel-hospitality"),
       MenuLink("/industries/", "Manufacturing & Supply Chain", "manufacturing-supply-chain"),
       MenuLink("/industries/", "Entertainment & Media", "entertainment-media"),
       MenuLink("/industries/", "Logistics & Transportation", "logistics-transportation"),
       MenuLink("/industries/", "Government & Public Sector", "government-public-sector")],
      None, None)

  /** `fallbackMenus`: the Solutions and Industries navigation groups. */
  const FallbackMenus: seq<MenuGroup> := [SolutionsMenu, IndustriesMenu]

  const SoftwareDevelopment: Solution :=
    Solution(None, "software-development", "Software Development",
      Some(SoftwareDevelopmentSubtitle),
      Some(SoftwareDevelopmentDescription),
      None,
      Some([Step("Requirements Analysis", SoftwareDevelopmentWorkflow1),
       Step("System Design & Architecture", SoftwareDevelopmentWorkflow2),
       Step("Agile Development", SoftwareDevelopmentWorkflow3),
       Step("Quality Assurance & Testing", SoftwareDevelopmentWorkflow4),
       Step("Deployment & Maintenance", SoftwareDevelopmentWorkflow5)]),
      Some([Step("Custom Software Development", SoftwareDevelopmentExpertise1),
       Step("SaaS Product Development", SoftwareDevelopmentExpertise2),
       Step("Enterprise Software Solutions", SoftwareDevelopmentExpertise3),
       Step("API Development & Integration", SoftwareDevelopmentExpertise4),
       Step("Automation & Workflow Systems", SoftwareDevelopmentExpertise5),
       Step("Cloud-Native Applications", SoftwareDevelopmentExpertise6)]),
      Some([Deliverable("Fully Functional Software", "Custom-built application ready for production use."),
       Deliverable("Scalable Architecture", "Modular, future-proof systems designed for growth."),
       Deliverable("Documentation & Training", SoftwareDevelopmentDeliverable3),
       Deliverable("Deployment & DevOps Support", "CI/CD pipelines, monitoring, and cloud setup."),
       Deliverable("Ongoing Maintenance", SoftwareDevelopmentDeliverable5)]),
      None, None)

  const WebDevelopment: Solution :=
    Solution(None, "web-development", "Web Development",
      Some(WebDevelopmentSubtitle),
      Some(WebDevelopmentDescription),
      None,
      Some([Step("Discovery & Strategy", WebDevelopmentWorkflow1),
       Step("Design & Prototyping", WebDevelopmentWorkflow2),
       Step("Front-End & Back-End Development", WebDevelopmentWorkflow3),
       Step("Testing & Quality Assurance", WebDevelopmentWorkflow4),
       Step("Launch & Ongoing Support", WebDevelopmentWorkflow5)]),
      Some([Step("Front-End Development", WebDevelopmentExpertise1),
       Step("Back-End Development", WebDevelopmentExpertise2),
       Step("E-Commerce Development", WebDevelopmentExpertise3),
       Step("Web Application Development", WebDevelopmentExpertise4),
       Step("LMS Development", WebDevelopmentExpertise5),
       Step("CMS Development", WebDevelopmentExpertise6)]),
      Some([Deliverable("Fully Responsive Website", "Works flawlessly across all devices."),
       Deliverable("Scalable Architecture", "Built to grow with your business."),
       Deliverable("Optimized Performance", "Fast load times and SEO-friendly structures."),
       Deliverable("CMS Integration", WebDevelopmentDeliverable4),
       Deliverable("Ongoing Support", "Continuous updates and feature rollouts.")]),
      None, None)

  const DigitalMarketing: Solution :=
    Solution(None, "digital-marketing", "Digital Marketing",
      Some(DigitalMarketingSubtitle),
      Some(DigitalMarketingDescription),
      None,
      Some([Step("Discovery & Market Research", DigitalMarketingWorkflow1),
       Step("Strategy & Campaign Design", DigitalMarketingWorkflow2),
       Step("Multi-Channel Execution", DigitalMarketingWorkflow3),
       Step("Monitoring & Optimization", DigitalMarketingWorkflow4),
       Step("Reporting & Growth Insights", DigitalMarketingWorkflow5)]),
      Some([Step("Social Media Marketing", DigitalMarketingExpertise1),
       Step("Paid Advertising", "Data-driven PPC campaigns for maximum ROI."),
       Step("Content Marketing", DigitalMarketingExpertise3),
       Step("Email Marketing", DigitalMarketingExpertise4),
       Step("Influencer & Affiliate Marketing", DigitalMarketingExpertise5),
       Step("Analytics & Optimization", DigitalMarketingExpertise6)]),
      Some([Deliverable("Marketing Strategy", "A custom, multi-platform growth plan."),
       Deliverable("High-Performance Campaigns", DigitalMarketingDeliverable2),
       Deliverable("Content Creation", "Engaging blogs, visuals, and videos."),
       Deliverable("Social Media Management", "Posting, community engagement, and growth."),
       Deliverable("Email Marketing", "Automated workflows and newsletters."),
       Deliverable("Transparent Reporting", "Monthly analytics and actionable insights.")]),
      None, None)

  /** `fallbackSolutions`. */
  const FallbackSolutions: seq<Solution> := [SoftwareDevelopment, WebDevelopment, DigitalMarketing]

  const ECommerceRetailIndustry: Industry :=
    Industry(None, "e-commerce-retail", "E-Commerce & Retail",
      Some(ECommerceRetailOverview),
      Some([Step("Technology Challenges", ECommerceRetailChallenge1),
       Step("Personalization Demands", ECommerceRetailChallenge2),
       Step("Marketing Competition", ECommerceRetailChallenge3)]),
      Some([Step("Web Development", ECommerceRetailRemedy1),
       Step("Digital Marketing & SEO", ECommerceRetailRemedy2),
       Step("Data Analytics & BI", ECommerceRetailRemedy3)]),
      None, None)

  const HealthcarePharmaceuticalsIndustry: Industry :=
    Industry(None, "healthcare-pharmaceuticals", "Healthcare & Pharmaceuticals",
      Some(HealthcarePharmaceuticalsOverview),
      Some([Step("Digital Experience", HealthcarePharmaceuticalsChallenge1),
       Step("Data Security", HealthcarePharmaceuticalsChallenge2),
       Step("Data Insights", HealthcarePharmaceuticalsChallenge3)]),
      Some([Step("Web Development", HealthcarePharmaceuticalsRemedy1),
       Step("SEO & Digital Marketing", HealthcarePharmaceuticalsRemedy2),
       Step("Data Engineering & Analytics", HealthcarePharmaceuticalsRemedy3)]),
      None, None)

  const FinanceBankingIndustry: Industry :=
    Industry(None, "finance-banking", "Finance & Banking",
      Some(FinanceBankingOverview),
      Some([Step("Security & Speed", FinanceBankingChallenge1),
       Step("Data Transparency", FinanceBankingChallenge2),
       Step("Fraud Prevention", FinanceBankingChallenge3)]),
      Some([Step("Web Development", FinanceBankingRemedy1),
       Step("Digital Marketing", FinanceBankingRemedy2),
       Step("Data Engineering & BI", FinanceBankingRemedy3)]),
      None, None)

  /** `fallbackIndustries`. */
  const FallbackIndustries: seq<Industry> := [ECommerceRetailIndustry, HealthcarePharmaceuticalsIndustry, FinanceBankingIndustry]

  function FutureOfWebDevelopmentPost(loadedAt: string): Blog {
    Blog(None, "The Future of Web Development: 2025 and Beyond", "future-of-web-development",
      Some(FutureOfWebDevelopmentExcerpt),
      Some(FutureOfWebDevelopmentContent),
      Some("Apu Debashish"),
      None, None, Some(loadedAt),
      Some("/images/blogs/future-web-dev.jpeg"), None, Some("Technology"),
      None, Some(["Web Development", "AI", "Innovation"]), Some(6))
  }

  function WhyUiUxMattersPost(loadedAt: string): Blog {
    Blog(None, "Why UI/UX Design Defines Digital Success in 2025", "why-ui-ux-matters",
      Some(WhyUiUxMattersExcerpt),
      Some(WhyUiUxMattersContent),
      Some("Corus Design Team"),
      None, None, Some(loadedAt),
      Some("/images/blogs/ui-ux-design.png"), None, Some("Design"),
      None, Some(["UI/UX", "Design Strategy", "Brand Experience"]), Some(5))
  }

  function ScalingWithCustomSoftwarePost(loadedAt: string): Blog {
    Blog(None, "Scaling Your Business with Custom Software Solutions", "scaling-with-custom-software",
      Some(ScalingWithCustomSoftwareExcerpt),
      Some(ScalingWithCustomSoftwareContent),
      Some("Tech Insight Writers"),
      None, None, Some(loadedAt),
      Some("/images/blogs/custom-software.jpeg"), None, Some("Software Development"),
      None, Some(["Business Growth", "Custom Software", "Automation"]), Some(7))
  }

  /** `fallbackBlogs`. */
  function FallbackBlogs(loadedAt: string): seq<Blog> {
    [FutureOfWebDevelopmentPost(loadedAt), WhyUiUxMattersPost(loadedAt), ScalingWithCustomSoftwarePost(loadedAt)]
  }

  const EcommerceBoostStudy: CaseStudy :=
    CaseStudy(None, "Boosting Online Sales for a Fashion E-Commerce Brand", "ecommerce-boost",
      None,
      Some(EcommerceBoostResults),
      Some("/images/case-studies/real-time.jpeg"),
      Some("E-Commerce & Retail"), Some("Styleify"),
      Some(EcommerceBoostChallenge),
      Some(EcommerceBoostSolution),
      Some(["Shopify", "React", "Node.js", "Google Ads"]), None,
      None, None, None, None, None,
      None, None)

  const SuperstoreSalesPerformanceDashboardStudy: CaseStudy :=
    CaseStudy(None, "Superstore Sales Performance Dashboard for Retail Insights", "superstore-sales-performance-dashboard",
      None,
      Some(SuperstoreSalesPerformanceDashboardResults),
      Some("/images/case-studies/superstore-sales-performance-dashboard.jpeg"),
      Some("Retail & Consumer Goods"), Some("Nationwide Superstore"),
      Some(SuperstoreSalesPerformanceDashboardChallenge),
      Some(SuperstoreSalesPerformanceDashboardSolution),
      Some(["Power BI", "Microsoft Excel", "DAX", "Data Modeling"]), None,
      None, None, None, None, None,
      None, None)

  /** `fallbackCaseStudies`. */
  const FallbackCaseStudies: seq<CaseStudy> := [EcommerceBoostStudy, SuperstoreSalesPerformanceDashboardStudy]

  /** No two elements of `s` share a key, so a `find` on that key has at most one match. */
  predicate DistinctKeys<T>(s: seq<T>, key: T -> string) {
    forall i, j :: 0 <= i < j < |s| ==> key(s[i]) != key(s[j])
  }

  /** There are exactly two menu groups, Solutions first, then Industries. */
  lemma MenuGroupsInOrder()
    ensures |FallbackMenus| == 2
    ensures FallbackMenus[0].slug == "solutions-menu" && FallbackMenus[0].title == "Solutions"
    ensures FallbackMenus[1].slug == "industries-menu" && FallbackMenus[1].title == "Industries"
    ensures |FallbackMenus[0].items| == 8 && |FallbackMenus[1].items| == 10
  {
  }

  /** Every Solutions item links to `/solutions/<slug>` and every Industries
      item to `/industries/<slug>`. */
  lemma MenuHrefsFollowSlugs()
    ensures forall it :: it in FallbackMenus[0].items ==> it.href == "/solutions/" + it.slug
    ensures forall it :: it in FallbackMenus[1].items ==> it.href == "/industries/" + it.slug
  {
    LinksFollowSlugs(SolutionsMenu.items, "/solutions/");
    LinksFollowSlugs(IndustriesMenu.items, "/industries/");
  }

  /** Every entry built by `MenuLink` links to its section path and slug. */
  lemma LinksFollowSlugs(items: seq<MenuItem>, section: string)
    requires forall i :: 0 <= i < |items| ==> items[i] == MenuLink(section, items[i].labelText, items[i].slug)
    ensures forall it :: it in items ==> it.href == section + it.slug
  {
    forall it | it in items
      ensures it.href == section + it.slug
    {
      var i :| 0 <= i < |items| && items[i] == it;
    }
  }

  /** Slugs are pairwise distinct within each fallback array and within each
      menu group. */
  lemma SlugsDistinct(loadedAt: string)
    ensures DistinctKeys(FallbackMenus, (m: MenuGroup) => m.slug)
    ensures DistinctKeys(FallbackMenus[0].items, (it: MenuItem) => it.slug)
    ensures DistinctKeys(FallbackMenus[1].items, (it: MenuItem) => it.slug)
    ensures DistinctKeys(FallbackSolutions, (s: Solution) => s.slug)
    ensures DistinctKeys(FallbackIndustries, (i: Industry) => i.slug)
    ensures DistinctKeys(FallbackBlogs(loadedAt), (b: Blog) => b.slug)
    ensures DistinctKeys(FallbackCaseStudies, (c: CaseStudy) => c.slug)
  {
    ItemSlugsDistinct();
    assert DistinctKeys(FallbackSolutions, (s: Solution) => s.slug) by {
      assert FallbackSolutions == [SoftwareDevelopment, WebDevelopment, DigitalMarketing];
    }
    assert DistinctKeys(FallbackBlogs(loadedAt), (b: Blog) => b.slug) by {
      var b := FallbackBlogs(loadedAt);
      assert b[0].slug == "future-of-web-development";
      assert b[1].slug == "why-ui-ux-matters";
      assert b[2].slug == "scaling-with-custom-software";
    }
  }

  lemma ItemSlugsDistinct()
    ensures DistinctKeys(FallbackMenus[0].items, (it: MenuItem) => it.slug)
    ensures DistinctKeys(FallbackMenus[1].items, (it: MenuItem) => it.slug)
  {
    SolutionItemSlugsDistinct();
    IndustryItemSlugsDistinct();
  }

  lemma SolutionItemSlugsDistinct()
    ensures DistinctKeys(SolutionsMenu.items, (it: MenuItem) => it.slug)
  {
  }

  lemma IndustryItemSlugsDistinct()
    ensures DistinctKeys(IndustriesMenu.items, (it: MenuItem) => it.slug)
  {
    var items := IndustriesMenu.items;
    forall i, j | 0 <= i < j < |items|
      ensures items[i].slug != items[j].slug
    {
      var a, b := items[i].slug, items[j].slug;
      assert |a| != |b| || a[0] != b[0];
    }
  }

  /** The slug `future-of-web-development` names the 2025 web-development post. */
  lemma FutureOfWebDevelopmentTitle(loadedAt: string)
    ensures exists b :: b in FallbackBlogs(loadedAt) && b.slug == "future-of-web-development"
    ensures forall b :: b in FallbackBlogs(loadedAt) && b.slug == "future-of-web-development" ==>
      b.title == "The Future of Web Development: 2025 and Beyond"
  {
    assert FallbackBlogs(loadedAt)[0].slug == "future-of-web-development";
  }

  /** Every fallback blog already carries `publishedAt`: the module-load time. */
  lemma BlogsArePublished(loadedAt: string)
    ensures forall b :: b in FallbackBlogs(loadedAt) ==> b.publishedAt == Some(loadedAt)
  {
  }

  /** Fallback case studies have no `status`. */
  lemma CaseStudiesHaveNoStatus()
    ensures forall c :: c in FallbackCaseStudies ==> c.status.None?
  {
  }

  // Paragraph-length copy of the records above.

  const SoftwareDevelopmentSubtitle: string :=
    "Custom Software Solutions Built to Scale Your Business"
  const SoftwareDevelopmentDescription: string :=
    "We design and develop powerful, reliable, and scalable software solutions that align perfectly with your business goals. From enterprise-grade systems to specialized tools, we focus on performance, security, and user experience — delivering software that grows with your company. Whether you need a SaaS platform, internal ERP system, or custom automation solution, we help transform your ideas into robust digital products."
  const SoftwareDevelopmentWorkflow1: string :=
    "We begin by deeply understanding your business objectives, user needs, and technical challenges. Our discovery sessions define a clear roadmap that aligns software goals with long-term business success."
  const SoftwareDevelopmentWorkflow2: string :=
    "We architect the system for scalability, flexibility, and performance. From database design to API structure, we ensure your foundation supports growth and future integrations."
  const SoftwareDevelopmentWorkflow3: string :=
    "Our development process is iterative, transparent, and collaborative. We build, test, and refine in short sprints — ensuring rapid progress and continuous feedback."
  const SoftwareDevelopmentWorkflow4: string :=
    "Every line of code is tested rigorously for functionality, security, and performance using both manual and automated testing methods."
  const SoftwareDevelopmentWorkflow5: string :=
    "We deploy your application with zero downtime and provide ongoing maintenance, monitoring, and feature enhancements."
  const SoftwareDevelopmentExpertise1: string :=
    "End-to-end development tailored to your business logic and operations."
  const SoftwareDevelopmentExpertise2: string :=
    "We build scalable multi-tenant SaaS platforms with secure user management and analytics."
  const SoftwareDevelopmentExpertise3: string :=
    "ERP, CRM, HRM, and custom enterprise apps for digital transformation."
  const SoftwareDevelopmentExpertise4: string :=
    "RESTful and GraphQL APIs built for high performance and seamless interoperability."
  const SoftwareDevelopmentExpertise5: string :=
    "We design tools that automate repetitive tasks and streamline business processes."
  const SoftwareDevelopmentExpertise6: string :=
    "We leverage AWS, Azure, or Google Cloud for scalable and secure deployments."
  const SoftwareDevelopmentDeliverable3: string :=
    "Comprehensive technical and user documentation with training materials."
  const SoftwareDevelopmentDeliverable5: string :=
    "Continuous updates, performance tuning, and bug fixes."
  const WebDevelopmentSubtitle: string :=
    "Build Websites and Applications That Power Your Growth"
  const WebDevelopmentDescription: string :=
    "Your website isn't just a digital brochure — it's the hub of your brand, the first touchpoint for your customers, and a powerful tool to drive growth. Our web development services cover everything from sleek front-end design to complex back-end systems, ensuring you get a solution that's fast, scalable, and tailored to your business. Whether you need a responsive website, a custom web application, or a full e-commerce platform, we combine design, functionality, and performance to deliver results that last."
  const WebDevelopmentWorkflow1: string :=
    "We don't just build websites — we build growth platforms. In this stage, we take the time to understand your business goals, industry landscape, competitors, and target audience behavior. By combining market insights with your vision, we create a strategic roadmap that ensures your website isn't just functional, but also a powerful driver of leads, sales, and brand trust."
  const WebDevelopmentWorkflow2: string :=
    "Great design is about more than aesthetics — it's about usability, credibility, and conversions. Our designers create wireframes, mockups, and clickable prototypes so you can experience your site before development begins."
  const WebDevelopmentWorkflow3: string :=
    "Our developers transform prototypes into a live platform with intuitive, mobile-friendly interfaces on the front end and robust, scalable systems on the back end. We ensure your site is secure, high-performing, and built to grow with your business."
  const WebDevelopmentWorkflow4: string :=
    "We put your site through rigorous multi-device, cross-browser, and real-world scenario testing to guarantee flawless functionality, speed, and security."
  const WebDevelopmentWorkflow5: string :=
    "We ensure a smooth rollout, monitor performance, and provide ongoing updates, maintenance, and optimization to keep your site competitive."
  const WebDevelopmentExpertise1: string :=
    "We design and code responsive interfaces using React, Angular, or Vue."
  const WebDevelopmentExpertise2: string :=
    "We build secure, scalable server-side logic using Node.js, Django, or Laravel."
  const WebDevelopmentExpertise3: string :=
    "We create conversion-focused online stores with payment gateways and inventory systems."
  const WebDevelopmentExpertise4: string :=
    "We build dynamic web apps like dashboards, SaaS, and portals optimized for performance."
  const WebDevelopmentExpertise5: string :=
    "We create e-learning systems for education and corporate training."
  const WebDevelopmentExpertise6: string :=
    "Custom or platform-based CMS solutions for easy content management."
  const WebDevelopmentDeliverable4: string :=
    "Manage your content easily with WordPress, Drupal, or custom CMS."
  const DigitalMarketingSubtitle: string :=
    "Drive Growth, Visibility, and Conversions That Matter"
  const DigitalMarketingDescription: string :=
    "Our digital marketing solutions are designed to increase your brand's visibility, generate leads, and boost sales. From SEO and social media marketing to paid campaigns, we create ROI-focused strategies tailored to your goals."
  const DigitalMarketingWorkflow1: string :=
    "We analyze your target audience, competitors, and brand identity to create data-backed strategies."
  const DigitalMarketingWorkflow2: string :=
    "We craft custom multi-channel roadmaps that combine SEO, ads, and social campaigns."
  const DigitalMarketingWorkflow3: string :=
    "We launch campaigns across Google, Facebook, LinkedIn, and email marketing platforms."
  const DigitalMarketingWorkflow4: string :=
    "We track, test, and refine every campaign for maximum performance."
  const DigitalMarketingWorkflow5: string :=
    "Transparent, easy-to-understand reports with actionable insights."
  const DigitalMarketingExpertise1: string :=
    "Engage audiences and build communities across major platforms."
  const DigitalMarketingExpertise3: string :=
    "SEO-optimized blogs, videos, and infographics that drive conversions."
  const DigitalMarketingExpertise4: string :=
    "Personalized campaigns and automation workflows for retention."
  const DigitalMarketingExpertise5: string :=
    "Collaborate with trusted voices to expand reach and credibility."
  const DigitalMarketingExpertise6: string :=
    "Performance tracking and continuous improvement based on data insights."
  const DigitalMarketingDeliverable2: string :=
    "Optimized ad campaigns across search and social media."
  const ECommerceRetailOverview: string :=
    "Where every click is a potential customer. The retail world has shifted from crowded shopping malls to digital storefronts. Customers no longer just 'buy'—they browse, compare, review, and expect seamless experiences. In today's competitive e-commerce market, the difference between a store that thrives and one that disappears often comes down to digital presence and customer experience."
  const ECommerceRetailChallenge1: string :=
    "Shoppers expect fast-loading, mobile-friendly websites with smooth checkouts."
  const ECommerceRetailChallenge2: string :=
    "Personalized recommendations powered by data analytics drive more sales."
  const ECommerceRetailChallenge3: string :=
    "Digital ads, SEO, and social media campaigns determine whether customers find you or your competitor."
  const ECommerceRetailRemedy1: string :=
    "Modern, scalable e-commerce websites with flawless checkout experiences and secure payment gateways."
  const ECommerceRetailRemedy2: string :=
    "Attract new customers with Google-first visibility, run highly targeted ad campaigns, and retarget existing shoppers."
  const ECommerceRetailRemedy3: string :=
    "Understand buying behavior, optimize pricing, and predict future sales trends."
  const HealthcarePharmaceuticalsOverview: string :=
    "Because in healthcare, trust and efficiency save lives. The healthcare industry is under immense pressure: patients demand convenience, doctors need efficiency, and regulations require compliance. Whether it's a hospital, a diagnostic lab, or a pharma company, modern technology isn't optional anymore—it's the backbone of better care and better business."
  const HealthcarePharmaceuticalsChallenge1: string :=
    "Patients want online appointment booking, telemedicine, and digital access to records."
  const HealthcarePharmaceuticalsChallenge2: string :=
    "Healthcare providers need secure platforms that protect sensitive data."
  const HealthcarePharmaceuticalsChallenge3: string :=
    "Pharmaceutical companies benefit from data-driven insights into drug demand and distribution."
  const HealthcarePharmaceuticalsRemedy1: string :=
    "HIPAA-compliant patient portals, telemedicine apps, and hospital management systems."
  const HealthcarePharmaceuticalsRemedy2: string :=
    "Increase visibility for clinics and wellness products, ensuring patients find trusted providers."
  const HealthcarePharmaceuticalsRemedy3: string :=
    "Transform patient and research data into actionable insights for better outcomes."
  const FinanceBankingOverview: string :=
    "In finance, security and speed mean everything. The financial industry is evolving faster than ever—customers now expect instant transactions, mobile banking, and crystal-clear transparency. Traditional systems are giving way to smart, data-driven experiences."
  const FinanceBankingChallenge1: string :=
    "Customers want secure mobile banking apps that work 24/7."
  const FinanceBankingChallenge2: string :=
    "Investors demand real-time dashboards to track market changes."
  const FinanceBankingChallenge3: string :=
    "AI-driven fraud detection protects institutions and clients alike."
  const FinanceBankingRemedy1: string :=
    "Secure online banking portals and custom fintech apps."
  const FinanceBankingRemedy2: string :=
    "Build brand trust through campaigns that showcase safety, speed, and reliability."
  const FinanceBankingRemedy3: string :=
    "Fraud detection systems, predictive financial analytics, and automated reporting dashboards."
  const FutureOfWebDevelopmentExcerpt: string :=
    "Explore the next generation of web technologies — from AI-driven development to hyper-personalized digital experiences shaping tomorrow's internet."
  const FutureOfWebDevelopmentContent: string :=
    "\nThe landscape of web development is undergoing a profound transformation as we move into 2025 and beyond. Modern websites are no longer static platforms; they are intelligent, adaptive systems designed to deliver highly personalized experiences. Artificial intelligence is playing a central role, assisting developers with code generation, performance optimization, accessibility compliance, and automated testing.\n\nFrameworks such as Next.js, Astro, and Remix are redefining how applications are built by emphasizing performance, server-side rendering, and edge computing. The rise of headless architectures and API-first development has made it easier for businesses to scale and integrate across multiple platforms, from web to mobile to IoT devices.\n\nAnother significant shift is the growing importance of web performance and sustainability. Faster load times, reduced energy consumption, and optimized assets are no longer optional—they are business requirements. Additionally, security and privacy are becoming integral parts of the development process, with stricter data regulations shaping architectural decisions.\n\nAs web development evolves, successful teams will be those who combine technical excellence with strategic thinking. The future belongs to developers who embrace continuous learning, automation, and user-centric design to build digital experiences that are not only functional, but truly impactful.\n"
  const WhyUiUxMattersExcerpt: string :=
    "Design goes beyond aesthetics — it's the bridge between technology and human emotion. Discover how thoughtful UX transforms brands into experiences."
  const WhyUiUxMattersContent: string :=
    "\nIn 2025, UI/UX design has become a defining factor in digital success. Users are no longer impressed by functionality alone; they expect seamless, intuitive, and emotionally engaging experiences across every touchpoint. A well-designed interface builds trust, reduces friction, and guides users effortlessly toward their goals.\n\nModern UX design focuses heavily on user behavior, accessibility, and inclusivity. Designers rely on data-driven insights, usability testing, and behavioral analytics to create interfaces that feel natural and responsive. Micro-interactions, motion design, and thoughtful typography now play a crucial role in shaping how users perceive a brand.\n\nEqually important is the alignment between UI/UX design and business objectives. A carefully crafted user journey can significantly improve conversion rates, retention, and customer satisfaction. In competitive markets, companies that invest in UX research and design strategy consistently outperform those that treat design as an afterthought.\n\nUltimately, UI/UX design is about empathy. By understanding user needs and expectations, organizations can create digital products that are not only beautiful but meaningful. In a world of endless choices, exceptional user experience is what turns visitors into loyal customers.\n"
  const ScalingWithCustomSoftwareExcerpt: string :=
    "Discover how purpose-built software empowers organizations to scale, automate, and compete with precision in a fast-evolving digital landscape."
  const ScalingWithCustomSoftwareContent: string :=
    "\nAs businesses grow, off-the-shelf software often becomes a constraint rather than a solution. Custom software development offers organizations the flexibility and control needed to scale efficiently while aligning technology with unique operational goals. Instead of adapting processes to fit generic tools, businesses can build systems that support their exact workflows.\n\nCustom solutions enable seamless integration with existing platforms, automation of repetitive tasks, and real-time data visibility. This leads to improved productivity, reduced operational costs, and faster decision-making. In addition, scalable architectures ensure that systems grow alongside the business without performance bottlenecks.\n\nSecurity and ownership are also major advantages of custom software. Organizations maintain full control over their data, infrastructure, and future enhancements. This is particularly important in industries with strict compliance requirements or sensitive information.\n\nIn a competitive digital environment, agility is key. Custom software empowers businesses to innovate faster, respond to market changes, and deliver superior customer experiences. By investing in tailored technology solutions, companies position themselves for sustainable growth and long-term success.\n"
  const EcommerceBoostResults: string :=
    "Conversion rate improved by 48% and cart abandonment dropped by 30% within 3 months."
  const EcommerceBoostChallenge: string :=
    "Client struggled with low conversion rates and abandoned carts despite high traffic."
  const EcommerceBoostSolution: string :=
    "We redesigned their Shopify storefront, optimized the checkout flow, and launched a targeted retargeting campaign."
  const SuperstoreSalesPerformanceDashboardResults: string :=
    "The Power BI dashboard provided leadership with a 360° view of retail performance, helping them identify their top-performing categories and most profitable customer segments."
  const SuperstoreSalesPerformanceDashboardChallenge: string :=
    "The client, a nationwide retail store, managed thousands of transactions across regions and product categories but lacked a clear overview of sales trends, profit margins, and customer segmentation."
  const SuperstoreSalesPerformanceDashboardSolution: string :=
    "We developed a fully interactive Power BI dashboard that consolidated sales, profit, and customer data into a single visual platform."
}
