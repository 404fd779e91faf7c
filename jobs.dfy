/**
 * The value types of the job search: a job listing as the sources deliver it,
 * the facet tables and the response of one search (jobs.ts).
 * Numbers are integers; `postedAt` is a millisecond timestamp.
 */
module Jobs {
  import opened Wrappers

  datatype JobListing = JobListing(
    id: string,
    title: string,
    company: string,
    location: string,
    description: string,
    salaryMin: Option<int>,
    salaryMax: Option<int>,
    jobType: string,          // the listing's `type`
    experienceLevel: string,
    industry: string,
    remote: bool,
    postedAt: int,
    relevanceScore: int,
    requirements: seq<string>,
    benefits: seq<string>,
    skills: seq<string>,
    source: string,
    applicationUrl: string,
    logo: Option<string>)

  /** One row of a facet table: a field value and how many jobs carry it. */
  datatype FacetEntry = FacetEntry(value: string, count: nat)

  datatype Facets = Facets(
    companies: seq<FacetEntry>,
    locations: seq<FacetEntry>,
    jobTypes: seq<FacetEntry>,
    experienceLevels: seq<FacetEntry>,
    industries: seq<FacetEntry>)

  const EmptyFacets := Facets([], [], [], [], [])

  datatype SearchResponse = SearchResponse(jobs: seq<JobListing>, total: nat, facets: Facets)
}
