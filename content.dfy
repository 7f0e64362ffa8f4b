/** The public content records the site renders: menus, solutions, industries,
    blog posts and case studies. Optional TypeScript fields are `Option`s;
    `_id` is `id`. */
module Content {
  import opened Wrappers

  datatype MenuItem = MenuItem(labelText: string, href: string, slug: string, description: Option<string>)

  datatype MenuGroup = MenuGroup(
    id: Option<string>, slug: string, title: string, items: seq<MenuItem>,
    createdAt: Option<string>, updatedAt: Option<string>)

  /** A titled paragraph: solution workflow and expertise steps, industry
      challenges and solutions. */
  datatype Step = Step(title: string, description: string)

  datatype Deliverable = Deliverable(item: string, description: string)

  datatype Solution = Solution(
    id: Option<string>, slug: string, title: string,
    subtitle: Option<string>, description: Option<string>, heroImage: Option<string>,
    workflow: Option<seq<Step>>, expertise: Option<seq<Step>>,
    deliverables: Option<seq<Deliverable>>,
    createdAt: Option<string>, updatedAt: Option<string>)

  datatype Industry = Industry(
    id: Option<string>, slug: string, title: string, overview: Option<string>,
    challenges: Option<seq<Step>>, solutions: Option<seq<Step>>,
    createdAt: Option<string>, updatedAt: Option<string>)

  datatype Blog = Blog(
    id: Option<string>, title: string, slug: string,
    excerpt: Option<string>, content: Option<string>, author: Option<string>,
    createdAt: Option<string>, updatedAt: Option<string>, publishedAt: Option<string>,
    image: Option<string>, contentHtml: Option<string>, category: Option<string>,
    status: Option<string>, tags: Option<seq<string>>, readTime: Option<int>)

  datatype Testimonial = Testimonial(quote: string, author: string, position: string)

  datatype CaseStudy = CaseStudy(
    id: Option<string>, title: string, slug: string,
    description: Option<string>, results: Option<string>, image: Option<string>,
    industry: Option<string>, client: Option<string>,
    challenge: Option<string>, solution: Option<string>,
    technologies: Option<seq<string>>, status: Option<string>,
    projectDuration: Option<string>, teamSize: Option<int>, budget: Option<int>,
    testimonial: Option<Testimonial>, gallery: Option<seq<string>>,
    createdAt: Option<string>, updatedAt: Option<string>)
}
