/** The records that pass between the components (course_discovery/domain/models.py). */
module Courses {
  import opened Text

  datatype Origin = FromCache | FromWeb

  datatype Evidence = Evidence(sourceUrl: string, quote: string, supports: seq<string>)

  /** What validation looks at; `other` stands for the remaining plain columns. */
  datatype Facts = Facts(
    provider: Option<string>, isFree: Option<bool>, hasCertificate: Option<bool>, level: Option<string>,
    language: Option<string>, rating: Option<real>, other: string)

  /** A course candidate. */
  datatype Course = Course(
    url: string, title: string, description: Option<string>, facts: Facts, duration: Option<real>,
    evidence: seq<Evidence>, origin: Origin)

  datatype Status = Valid | Rejected | Uncertain

  datatype Filters = Filters(
    topic: string, level: string, maxPrice: real, certificate: bool, languages: seq<string>, minRating: real)

  /** {item for evidence in candidate.evidence for item in evidence.supports}. */
  function SupportedItems(c: Course): set<string> {
    set e, item | e in c.evidence && item in e.supports :: item
  }

  predicate DistinctUrls(courses: seq<Course>) {
    forall i, j :: 0 <= i < j < |courses| ==> courses[i].url != courses[j].url
  }

  /** URLs of the courses that come from the web. */
  function WebUrls(courses: seq<Course>): set<string> {
    set c | c in courses && c.origin.FromWeb? :: c.url
  }
}
