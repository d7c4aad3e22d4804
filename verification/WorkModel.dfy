/** Work records as ORCID's API carries them. */
module Orcid {
  import opened Wrappers
  import opened Dates

  datatype ExternalId = ExternalId(
    kind: string, value: string, normalized: Option<string>, url: string, relationship: string)

  /** One record for each role of a contributor. */
  datatype Contributor = Contributor(path: Option<string>, creditName: string, email: Option<string>, role: string)

  datatype Citation = Citation(kind: string, value: string)

  /** A record to be added, and what an update carries beside its put code. */
  datatype NewWork = NewWork(
    kind: string, title: string, journalTitle: string, url: string, publicationDate: Date,
    externalIds: seq<ExternalId>, shortDescription: string, citation: Citation, contributors: seq<Contributor>)

  datatype WorkUpdate = WorkUpdate(putCode: int, work: NewWork)

  /** What ORCID adds to a record it keeps. */
  datatype Persisted = Persisted(putCode: int, createdDate: int, lastModifiedDate: Option<int>, source: Option<string>)

  datatype Work = Work(
    meta: Persisted, kind: string, title: string, journalTitle: Option<string>, url: string, publicationDate: Date,
    externalIds: seq<ExternalId>, shortDescription: Option<string>, citation: Option<Citation>,
    contributors: seq<Contributor>)

  datatype WorkSummary = WorkSummary(
    meta: Persisted, kind: string, title: string, journalTitle: Option<string>, url: string, publicationDate: Date,
    externalIds: seq<ExternalId>)

  datatype WorkGroup = WorkGroup(lastModifiedDate: int, externalIds: seq<ExternalId>, summaries: seq<WorkSummary>)

  datatype PersonName = PersonName(creditName: Option<string>, givenNames: string, familyName: Option<string>)

  datatype Profile = Profile(path: string, name: Option<PersonName>)
}

/** Work records as the service shows them. */
module Service {
  import opened Wrappers

  datatype ExternalId = ExternalId(kind: string, value: string, url: string, relationship: string)

  datatype SelfContributor = SelfContributor(orcidId: string, name: string, roles: seq<string>)

  datatype Contributor = Contributor(orcidId: Option<string>, name: string, roles: seq<string>)

  datatype Citation = Citation(kind: string, value: string)

  /** A new work, and what every stored or updated work carries. */
  datatype FullWork = FullWork(
    title: string, date: string, kind: string, url: string, doi: string, externalIds: seq<ExternalId>,
    journal: string, shortDescription: string, citation: Citation,
    selfContributor: SelfContributor, otherContributors: seq<Contributor>)

  datatype WorkUpdate = WorkUpdate(putCode: int, work: FullWork)

  datatype Work = Work(putCode: int, createdAt: int, updatedAt: Option<int>, source: Option<string>, work: FullWork)

  datatype WorkSummary = WorkSummary(
    putCode: int, createdAt: int, updatedAt: Option<int>, source: Option<string>,
    title: string, journal: Option<string>, date: string, kind: string, url: string, doi: string,
    externalIds: seq<ExternalId>)

  datatype WorkGroup = WorkGroup(updatedAt: int, externalIds: seq<ExternalId>, works: seq<WorkSummary>)
}
