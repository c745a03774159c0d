/** The schema.org JSON-LD builders of `lib/schema.ts` that depend on their
    input: `BreadcrumbList`, `FAQPage` and `JobPosting`. Constant members of
    the objects (`@type` tags, the hiring organisation, the salary block) are
    fields of the result only where they carry information. */
module Schema {
  import opened Optional
  import opened Text

  const BaseUrl: string := "https://www.navagathatech.com"
  const SchemaContext: string := "https://schema.org"

  /** A crumb as the pages pass it. */
  datatype BreadcrumbItem = BreadcrumbItem(name: string, url: string)

  /** `{ "@type": "ListItem", position, name, item }`. */
  datatype ListItem = ListItem(position: int, name: string, item: string)

  /** `{ "@context", "@type": "BreadcrumbList", itemListElement }`. */
  datatype BreadcrumbList = BreadcrumbList(context: string, itemListElement: seq<ListItem>)

  /** The list items for `items`, numbered from `first` on. */
  function ListItemsFrom(items: seq<BreadcrumbItem>, first: int): (r: seq<ListItem>)
    ensures |r| == |items|
    ensures forall i :: 0 <= i < |r| ==>
              r[i].position == first + i && r[i].name == items[i].name && r[i].item == items[i].url
    decreases |items|
  {
    if items == [] then []
    else [ListItem(first, items[0].name, items[0].url)] + ListItemsFrom(items[1..], first + 1)
  }

  /** `getBreadcrumbSchema(items)`: one list item per crumb, in order, with
      positions 1, 2, ..., n. */
  function GetBreadcrumbSchema(items: seq<BreadcrumbItem>): (s: BreadcrumbList)
    ensures s.context == SchemaContext
    ensures |s.itemListElement| == |items|
    ensures forall i :: 0 <= i < |items| ==> s.itemListElement[i].position == i + 1
    ensures forall i :: 0 <= i < |items| ==>
              s.itemListElement[i].name == items[i].name && s.itemListElement[i].item == items[i].url
  {
    BreadcrumbList(SchemaContext, ListItemsFrom(items, 1))
  }

  /** The crumbs a list of list items describes. */
  function CrumbsOf(list: seq<ListItem>): (items: seq<BreadcrumbItem>)
    ensures |items| == |list|
  {
    seq(|list|, i requires 0 <= i < |list| => BreadcrumbItem(list[i].name, list[i].item))
  }

  /** The crumbs can be read back from the schema: nothing is lost, reordered
      or invented. */
  lemma BreadcrumbRoundTrip(items: seq<BreadcrumbItem>)
    ensures CrumbsOf(GetBreadcrumbSchema(items).itemListElement) == items
  {
    var back := CrumbsOf(GetBreadcrumbSchema(items).itemListElement);
    assert forall i :: 0 <= i < |items| ==> back[i] == items[i];
  }

  /** Numbering continues across a concatenation: the trail of `a + b` is
      the trail of `a` followed by `b` numbered from `|a| + 1`. */
  lemma {:induction false} ListItemsAppend(a: seq<BreadcrumbItem>, b: seq<BreadcrumbItem>, first: int)
    ensures ListItemsFrom(a + b, first) == ListItemsFrom(a, first) + ListItemsFrom(b, first + |a|)
    decreases |a|
  {
    if a == [] {
      assert a + b == b;
    } else {
      assert (a + b)[0] == a[0];
      assert (a + b)[1..] == a[1..] + b;
      ListItemsAppend(a[1..], b, first + 1);
    }
  }

  /** A question and its answer as the pages pass them. */
  datatype FaqItem = FaqItem(question: string, answer: string)

  /** `{ "@type": "Answer", text }`. */
  datatype Answer = Answer(text: string)

  /** `{ "@type": "Question", name, acceptedAnswer }`. */
  datatype Question = Question(name: string, acceptedAnswer: Answer)

  /** `{ "@context", "@type": "FAQPage", mainEntity }`. */
  datatype FaqPage = FaqPage(context: string, mainEntity: seq<Question>)

  function Questions(faqs: seq<FaqItem>): (r: seq<Question>)
    ensures |r| == |faqs|
    ensures forall i :: 0 <= i < |r| ==>
              r[i].name == faqs[i].question && r[i].acceptedAnswer.text == faqs[i].answer
    decreases |faqs|
  {
    if faqs == [] then []
    else [Question(faqs[0].question, Answer(faqs[0].answer))] + Questions(faqs[1..])
  }

  /** `getFAQPageSchema(faqs)`: one question per entry, in order, named by
      the question and answered by the answer. */
  function GetFAQPageSchema(faqs: seq<FaqItem>): (p: FaqPage)
    ensures p.context == SchemaContext
    ensures |p.mainEntity| == |faqs|
    ensures forall i :: 0 <= i < |faqs| ==>
              p.mainEntity[i].name == faqs[i].question && p.mainEntity[i].acceptedAnswer.text == faqs[i].answer
  {
    FaqPage(SchemaContext, Questions(faqs))
  }

  /** The entries a list of questions describes. */
  function FaqsOf(questions: seq<Question>): (faqs: seq<FaqItem>)
    ensures |faqs| == |questions|
  {
    seq(|questions|, i requires 0 <= i < |questions| =>
      FaqItem(questions[i].name, questions[i].acceptedAnswer.text))
  }

  /** The entries can be read back from the page. */
  lemma FaqRoundTrip(faqs: seq<FaqItem>)
    ensures FaqsOf(GetFAQPageSchema(faqs).mainEntity) == faqs
  {
    var back := FaqsOf(GetFAQPageSchema(faqs).mainEntity);
    assert forall i :: 0 <= i < |faqs| ==> back[i] == faqs[i];
  }

  /** The posting fields the builder reads (the `Job` of `lib/schema.ts`). */
  datatype PostedJob = PostedJob(
    id: string,
    title: string,
    description: string,
    department: string,
    jobType: string,
    location: string,
    slug: string,
    datePosted: Option<string>)

  /** A date in the output: a string given by the posting, or
      `new Date(ms).toISOString()` of an instant (the ISO formatting itself
      is not modelled). */
  datatype DateText = Given(text: string) | IsoOf(ms: nat)

  /** A posting is advertised as open for 90 days. */
  const ValidForMs: nat := 90 * 24 * 60 * 60 * 1000

  /** The `JobPosting` object, with the fields that depend on the posting or
      the clock. */
  datatype JobPosting = JobPosting(
    context: string,
    title: string,
    description: string,
    identifierValue: string,
    datePosted: DateText,
    validThrough: DateText,
    employmentType: string,
    addressLocality: string,
    occupationalCategory: string,
    url: string)

  /** `getJobPostingSchema(job)` at the instant `now`. */
  function GetJobPostingSchema(job: PostedJob, now: nat): (p: JobPosting)
    ensures p.context == SchemaContext
    ensures p.url == BaseUrl + "/careers/" + job.slug
    ensures p.identifierValue == job.id
    ensures p.employmentType == ToUpper(job.jobType)
    ensures p.datePosted == if Falsy(job.datePosted) then IsoOf(now) else Given(job.datePosted.value)
    ensures p.validThrough == IsoOf(now + ValidForMs)
    ensures p.title == job.title && p.description == job.description
    ensures p.addressLocality == job.location && p.occupationalCategory == job.department
  {
    JobPosting(
      SchemaContext, job.title, job.description, job.id,
      if Falsy(job.datePosted) then IsoOf(now) else Given(job.datePosted.value),
      IsoOf(now + ValidForMs), ToUpper(job.jobType), job.location, job.department,
      BaseUrl + "/careers/" + job.slug)
  }

  /** Two postings get the same URL exactly when they have the same slug. */
  lemma PostingUrlIdentifiesSlug(j1: PostedJob, j2: PostedJob, now1: nat, now2: nat)
    ensures GetJobPostingSchema(j1, now1).url == GetJobPostingSchema(j2, now2).url <==> j1.slug == j2.slug
  {
    var prefix := BaseUrl + "/careers/";
    if prefix + j1.slug == prefix + j2.slug {
      assert (prefix + j1.slug)[|prefix|..] == j1.slug;
      assert (prefix + j2.slug)[|prefix|..] == j2.slug;
    }
  }

  /** The employment type does not depend on how the posting's type was
      capitalised. */
  lemma EmploymentTypeIgnoresCase(job: PostedJob, now: nat)
    ensures GetJobPostingSchema(job, now).employmentType ==
            GetJobPostingSchema(job.(jobType := ToLower(job.jobType)), now).employmentType
  {
    ToUpperIgnoresCase(job.jobType);
  }
}
