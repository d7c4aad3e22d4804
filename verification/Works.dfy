/** Work records: to the service, to ORCID, and what survives the trip. */
module Works {
  import opened Wrappers
  import opened Dates
  import opened Contributors
  import Orcid
  import Service

  datatype WorkError =
    | JournalMissing | NoSelfDoi | ManySelfDois | NamePrivate | CitationMissing | DescriptionMissing

  // ---- External ids ----------------------------------------------------------------------

  predicate IsSelfDoi(kind: string, relationship: string) {
    kind == "doi" && relationship == "self"
  }

  function TransformExternalId(e: Orcid.ExternalId): Service.ExternalId {
    Service.ExternalId(e.kind, e.value, e.url, e.relationship)
  }

  function SelfDois(ids: seq<Orcid.ExternalId>): seq<string> {
    if ids == [] then []
    else
      var last := ids[|ids| - 1];
      SelfDois(ids[..|ids| - 1]) + if IsSelfDoi(last.kind, last.relationship) then [last.value] else []
  }

  function OtherIds(ids: seq<Orcid.ExternalId>): seq<Service.ExternalId> {
    if ids == [] then []
    else
      var last := ids[|ids| - 1];
      OtherIds(ids[..|ids| - 1]) + if IsSelfDoi(last.kind, last.relationship) then [] else [TransformExternalId(last)]
  }

  method PartitionExternalIds(ids: seq<Orcid.ExternalId>) returns (dois: seq<string>, others: seq<Service.ExternalId>)
    ensures dois == SelfDois(ids) && others == OtherIds(ids)
  {
    dois, others := [], [];
    for i := 0 to |ids|
      invariant dois == SelfDois(ids[..i]) && others == OtherIds(ids[..i])
    {
      assert ids[..i + 1][..i] == ids[..i];
      if IsSelfDoi(ids[i].kind, ids[i].relationship) {
        dois := dois + [ids[i].value];
      } else {
        others := others + [TransformExternalId(ids[i])];
      }
    }
    assert ids[..|ids|] == ids;
  }

  /** The id a work is sent with in front: its own DOI. */
  function DoiRecord(doi: string): Orcid.ExternalId {
    Orcid.ExternalId("doi", doi, None, "https://doi.org/" + doi, "self")
  }

  function ExternalIdsOf(doi: string, ids: seq<Service.ExternalId>): (records: seq<Orcid.ExternalId>)
    ensures |records| == |ids| + 1
  {
    [DoiRecord(doi)] +
    seq(|ids|, i requires 0 <= i < |ids| =>
      Orcid.ExternalId(ids[i].kind, ids[i].value, None, ids[i].url, ids[i].relationship))
  }

  method ExternalIdsToOrcid(doi: string, ids: seq<Service.ExternalId>) returns (records: seq<Orcid.ExternalId>)
    ensures records == ExternalIdsOf(doi, ids)
  {
    records := [DoiRecord(doi)];
    for i := 0 to |ids|
      invariant records == ExternalIdsOf(doi, ids[..i])
    {
      records := records + [Orcid.ExternalId(ids[i].kind, ids[i].value, None, ids[i].url, ids[i].relationship)];
    }
    assert ids[..|ids|] == ids;
  }

  ghost predicate NoSelfDois(ids: seq<Service.ExternalId>) {
    forall i | 0 <= i < |ids| :: !(ids[i].kind == "doi" && ids[i].relationship == "self")
  }

  /** Sent ids come back as they were, unless one of them is a self DOI: then there are two. */
  lemma {:induction false} SentIdsPartition(doi: string, ids: seq<Service.ExternalId>)
    ensures NoSelfDois(ids) ==> SelfDois(ExternalIdsOf(doi, ids)) == [doi] && OtherIds(ExternalIdsOf(doi, ids)) == ids
    ensures |SelfDois(ExternalIdsOf(doi, ids))| == 1 <==> NoSelfDois(ids)
    ensures |SelfDois(ExternalIdsOf(doi, ids))| >= 1
  {
    var records := ExternalIdsOf(doi, ids);
    if ids == [] {
      assert records == [DoiRecord(doi)] && records[..0] == [];
    } else {
      var n := |ids| - 1;
      SentIdsPartition(doi, ids[..n]);
      assert records[..n + 1] == ExternalIdsOf(doi, ids[..n]);
      assert ids == ids[..n] + [ids[n]];
      assert NoSelfDois(ids) <==> NoSelfDois(ids[..n]) && !IsSelfDoi(ids[n].kind, ids[n].relationship);
    }
  }

  lemma {:induction false} OthersAreNoSelfDois(ids: seq<Orcid.ExternalId>)
    ensures NoSelfDois(OtherIds(ids))
    ensures |SelfDois(ids)| + |OtherIds(ids)| == |ids|
  {
    if ids != [] { OthersAreNoSelfDois(ids[..|ids| - 1]); }
  }

  predicate NoneIsSelfDoi(ids: seq<Orcid.ExternalId>) {
    forall i | 0 <= i < |ids| :: !(ids[i].kind == "doi" && ids[i].relationship == "self")
  }

  /** The id at one place is a self DOI, and no other is. */
  ghost predicate OnlySelfDoi(ids: seq<Orcid.ExternalId>, i: nat) {
    i < |ids| && forall j | 0 <= j < |ids| :: ids[j].kind == "doi" && ids[j].relationship == "self" <==> j == i
  }

  ghost predicate HasOneSelfDoi(ids: seq<Orcid.ExternalId>) {
    exists i :: OnlySelfDoi(ids, i)
  }

  lemma {:induction false} NoSelfDoiIff(ids: seq<Orcid.ExternalId>)
    ensures SelfDois(ids) == [] <==> NoneIsSelfDoi(ids)
  {
    if ids != [] { NoSelfDoiIff(ids[..|ids| - 1]); }
  }

  lemma {:induction false} OneSelfDoiIff(ids: seq<Orcid.ExternalId>)
    ensures |SelfDois(ids)| == 1 <==> HasOneSelfDoi(ids)
    ensures |SelfDois(ids)| == 1 ==> exists i: nat :: OnlySelfDoi(ids, i) && SelfDois(ids) == [ids[i].value]
    ensures SelfDois(ids) == [] <==> NoneIsSelfDoi(ids)
  {
    NoSelfDoiIff(ids);
    if ids != [] {
      var n := |ids| - 1;
      OneSelfDoiIff(ids[..n]);
      NoSelfDoiIff(ids[..n]);
      if IsSelfDoi(ids[n].kind, ids[n].relationship) {
        if SelfDois(ids[..n]) == [] { assert OnlySelfDoi(ids, n); }
        forall i | OnlySelfDoi(ids, i) ensures SelfDois(ids[..n]) == [] {}
      } else {
        forall i | OnlySelfDoi(ids[..n], i) ensures OnlySelfDoi(ids, i) {}
        forall i | OnlySelfDoi(ids, i) ensures OnlySelfDoi(ids[..n], i) {}
      }
    }
  }

  // ---- To the service --------------------------------------------------------------------

  function ProfileName(name: Orcid.PersonName): string {
    match name.creditName
    case Some(credit) => credit
    case None =>
      match name.familyName
      case None => name.givenNames
      case Some(family) => name.givenNames + " " + family
  }

  /** The name to show: the credit name if there is one, else the given names, with the family name if there is one. */
  predicate IsShownName(name: Orcid.PersonName, shown: string) {
    && (name.creditName.Some? ==> shown == name.creditName.value)
    && (name.creditName.None? && name.familyName.None? ==> shown == name.givenNames)
    && (name.creditName.None? && name.familyName.Some? ==> shown == name.givenNames + " " + name.familyName.value)
  }

  function WorkOf(profile: Orcid.Profile, raw: Orcid.Work): Result<Service.Work, WorkError> {
    var dois := SelfDois(raw.externalIds);
    if raw.journalTitle.None? then Err(JournalMissing)
    else if |dois| == 0 then Err(NoSelfDoi)
    else if |dois| > 1 then Err(ManySelfDois)
    else if profile.name.None? then Err(NamePrivate)
    else if raw.citation.None? then Err(CitationMissing)
    else if raw.shortDescription.None? then Err(DescriptionMissing)
    else
      var self := Service.SelfContributor(
        profile.path, ProfileName(profile.name.value), SelfRoles(raw.contributors, profile.path));
      Ok(Service.Work(raw.meta.putCode, raw.meta.createdDate, raw.meta.lastModifiedDate, raw.meta.source,
        Service.FullWork(
          raw.title, DateToString(raw.publicationDate), raw.kind, raw.url, dois[0], OtherIds(raw.externalIds),
          raw.journalTitle.value, raw.shortDescription.value,
          Service.Citation(raw.citation.value.kind, raw.citation.value.value),
          self, Group(raw.contributors, profile.path))))
  }

  ghost predicate ShowsScalars(raw: Orcid.Work, w: Service.Work) {
    && w.putCode == raw.meta.putCode && w.createdAt == raw.meta.createdDate && w.updatedAt == raw.meta.lastModifiedDate
    && w.source == raw.meta.source && w.work.title == raw.title && w.work.kind == raw.kind && w.work.url == raw.url
    && raw.journalTitle == Some(w.work.journal) && raw.shortDescription == Some(w.work.shortDescription)
    && raw.citation == Some(Orcid.Citation(w.work.citation.kind, w.work.citation.value))
  }

  method TransformWork(profile: Orcid.Profile, raw: Orcid.Work) returns (r: Result<Service.Work, WorkError>)
    ensures r == WorkOf(profile, raw)
    // The errors, in the order they are found.
    ensures r == Err(JournalMissing) <==> raw.journalTitle.None?
    ensures r == Err(NoSelfDoi) <==> raw.journalTitle.Some? && NoneIsSelfDoi(raw.externalIds)
    ensures r == Err(ManySelfDois) <==>
            raw.journalTitle.Some? && !NoneIsSelfDoi(raw.externalIds) && !HasOneSelfDoi(raw.externalIds)
    ensures r == Err(NamePrivate) <==> raw.journalTitle.Some? && HasOneSelfDoi(raw.externalIds) && profile.name.None?
    ensures r == Err(CitationMissing) <==>
            raw.journalTitle.Some? && HasOneSelfDoi(raw.externalIds) && profile.name.Some? && raw.citation.None?
    ensures r == Err(DescriptionMissing) <==>
            raw.journalTitle.Some? && HasOneSelfDoi(raw.externalIds) && profile.name.Some? && raw.citation.Some? &&
            raw.shortDescription.None?
    // What is shown.
    ensures r.Ok? ==> ShowsScalars(raw, r.value)
    ensures r.Ok? ==> exists i: nat :: OnlySelfDoi(raw.externalIds, i) && r.value.work.doi == raw.externalIds[i].value
    ensures r.Ok? ==> NoSelfDois(r.value.work.externalIds) && |r.value.work.externalIds| == |raw.externalIds| - 1
    ensures r.Ok? ==> ShowsDate(raw.publicationDate, r.value.work.date)
    ensures r.Ok? ==> profile.name.Some? && IsShownName(profile.name.value, r.value.work.selfContributor.name)
    ensures r.Ok? ==> r.value.work.selfContributor.orcidId == profile.path
    ensures r.Ok? ==> r.value.work.selfContributor.roles == SelfRoles(raw.contributors, profile.path)
    ensures r.Ok? ==> IsGrouping(raw.contributors, profile.path, r.value.work.otherContributors)
    ensures r.Ok? ==>
              |r.value.work.selfContributor.roles| + RoleCount(r.value.work.otherContributors) == |raw.contributors|
  {
    OneSelfDoiIff(raw.externalIds);
    OthersAreNoSelfDois(raw.externalIds);
    PrintedDate(raw.publicationDate);
    var date := DateToString(raw.publicationDate);
    if raw.journalTitle.None? { return Err(JournalMissing); }
    var dois, externalIds := PartitionExternalIds(raw.externalIds);
    if |dois| == 0 { return Err(NoSelfDoi); }
    if |dois| > 1 { return Err(ManySelfDois); }
    var selfRoles := CollectSelfRoles(raw.contributors, profile.path);
    if profile.name.None? { return Err(NamePrivate); }
    var self := Service.SelfContributor(profile.path, ProfileName(profile.name.value), selfRoles);
    if raw.citation.None? { return Err(CitationMissing); }
    var citation := Service.Citation(raw.citation.value.kind, raw.citation.value.value);
    var others := GroupContributors(raw.contributors, profile.path);
    if raw.shortDescription.None? { return Err(DescriptionMissing); }
    RolesAreConserved(raw.contributors, profile.path);
    r := Ok(Service.Work(raw.meta.putCode, raw.meta.createdDate, raw.meta.lastModifiedDate, raw.meta.source,
      Service.FullWork(raw.title, date, raw.kind, raw.url, dois[0], externalIds, raw.journalTitle.value,
                       raw.shortDescription.value, citation, self, others)));
  }

  function SummaryOf(raw: Orcid.WorkSummary): Result<Service.WorkSummary, WorkError> {
    var dois := SelfDois(raw.externalIds);
    if |dois| == 0 then Err(NoSelfDoi)
    else if |dois| > 1 then Err(ManySelfDois)
    else Ok(Service.WorkSummary(
      raw.meta.putCode, raw.meta.createdDate, raw.meta.lastModifiedDate, raw.meta.source, raw.title, raw.journalTitle,
      DateToString(raw.publicationDate), raw.kind, raw.url, dois[0], OtherIds(raw.externalIds)))
  }

  ghost predicate ShowsSummaryScalars(raw: Orcid.WorkSummary, w: Service.WorkSummary) {
    && w.putCode == raw.meta.putCode && w.createdAt == raw.meta.createdDate && w.updatedAt == raw.meta.lastModifiedDate
    && w.source == raw.meta.source && w.title == raw.title && w.journal == raw.journalTitle && w.kind == raw.kind
    && w.url == raw.url
  }

  method TransformWorkSummary(raw: Orcid.WorkSummary) returns (r: Result<Service.WorkSummary, WorkError>)
    ensures r == SummaryOf(raw)
    ensures r.Ok? <==> HasOneSelfDoi(raw.externalIds)
    ensures r.Ok? ==> ShowsSummaryScalars(raw, r.value) && ShowsDate(raw.publicationDate, r.value.date)
    ensures r.Ok? ==> exists i: nat :: OnlySelfDoi(raw.externalIds, i) && r.value.doi == raw.externalIds[i].value
    ensures r.Ok? ==> NoSelfDois(r.value.externalIds) && |r.value.externalIds| == |raw.externalIds| - 1
    ensures r.Ok? && IsCanonical(raw.publicationDate) ==> ParseDate(r.value.date) == Ok(raw.publicationDate)
    ensures r == Err(NoSelfDoi) <==> NoneIsSelfDoi(raw.externalIds)
    ensures r.Err? ==> r.error == NoSelfDoi || r.error == ManySelfDois
  {
    OneSelfDoiIff(raw.externalIds);
    OthersAreNoSelfDois(raw.externalIds);
    ParsePrintIff(raw.publicationDate);
    PrintedDate(raw.publicationDate);
    var dois, externalIds := PartitionExternalIds(raw.externalIds);
    if |dois| == 0 { return Err(NoSelfDoi); }
    if |dois| > 1 { return Err(ManySelfDois); }
    r := Ok(Service.WorkSummary(
      raw.meta.putCode, raw.meta.createdDate, raw.meta.lastModifiedDate, raw.meta.source, raw.title, raw.journalTitle,
      DateToString(raw.publicationDate), raw.kind, raw.url, dois[0], externalIds));
  }

  /** The summary ORCID lists of a work. */
  function SummaryRecord(raw: Orcid.Work): Orcid.WorkSummary {
    Orcid.WorkSummary(raw.meta, raw.kind, raw.title, raw.journalTitle, raw.url, raw.publicationDate, raw.externalIds)
  }

  function Abridged(w: Service.Work): Service.WorkSummary {
    Service.WorkSummary(w.putCode, w.createdAt, w.updatedAt, w.source, w.work.title, Some(w.work.journal), w.work.date,
                        w.work.kind, w.work.url, w.work.doi, w.work.externalIds)
  }

  /** A work and its summary are shown alike. */
  lemma SummaryAgrees(profile: Orcid.Profile, raw: Orcid.Work)
    requires WorkOf(profile, raw).Ok?
    ensures SummaryOf(SummaryRecord(raw)) == Ok(Abridged(WorkOf(profile, raw).value))
  {
  }

  // ---- get_works -------------------------------------------------------------------------

  /** The summaries of works that this service put there. */
  function Ours(summaries: seq<Orcid.WorkSummary>): seq<Orcid.WorkSummary> {
    if summaries == [] then []
    else
      var last := summaries[|summaries| - 1];
      Ours(summaries[..|summaries| - 1]) + if last.meta.source == Some("KBase CI") then [last] else []
  }

  ghost predicate Shows(raw: seq<Orcid.WorkSummary>, works: seq<Service.WorkSummary>) {
    |works| == |Ours(raw)| && forall i | 0 <= i < |works| :: SummaryOf(Ours(raw)[i]) == Ok(works[i])
  }

  ghost predicate Showable(raw: seq<Orcid.WorkSummary>) {
    forall i | 0 <= i < |raw| && raw[i].meta.source == Some("KBase CI") :: HasOneSelfDoi(raw[i].externalIds)
  }

  /** The first of this service's works that cannot be shown. */
  ghost predicate FailsAt(raw: seq<Orcid.WorkSummary>, i: nat, e: WorkError) {
    && i < |raw| && raw[i].meta.source == Some("KBase CI") && Showable(raw[..i])
    && SummaryOf(raw[i]) == Err(e)
  }

  method TransformSummaries(raw: seq<Orcid.WorkSummary>) returns (r: Result<seq<Service.WorkSummary>, WorkError>)
    ensures r.Ok? <==> Showable(raw)
    ensures r.Ok? ==> Shows(raw, r.value)
    ensures r.Err? ==> exists i: nat :: FailsAt(raw, i, r.error)
  {
    var works := [];
    for i := 0 to |raw|
      invariant Showable(raw[..i]) && Shows(raw[..i], works)
    {
      assert raw[..i + 1][..i] == raw[..i];
      if raw[i].meta.source == Some("KBase CI") {
        var work := TransformWorkSummary(raw[i]);
        if work.Err? {
          assert FailsAt(raw, i, work.error);
          return Err(work.error);
        }
        works := works + [work.value];
      }
    }
    assert raw[..|raw|] == raw;
    r := Ok(works);
  }

  ghost predicate ShowsGroup(raw: Orcid.WorkGroup, group: Service.WorkGroup) {
    && group.updatedAt == raw.lastModifiedDate
    && |group.externalIds| == |raw.externalIds|
    && (forall i | 0 <= i < |raw.externalIds| ::
          group.externalIds[i] == Service.ExternalId(
            raw.externalIds[i].kind, raw.externalIds[i].value, raw.externalIds[i].url, raw.externalIds[i].relationship))
    && Shows(raw.summaries, group.works)
  }

  /** Only the works this service put there; one of them without exactly one self DOI fails the whole list. */
  method GetWorks(raw: seq<Orcid.WorkGroup>) returns (r: Result<seq<Service.WorkGroup>, WorkError>)
    ensures r.Ok? <==> forall i | 0 <= i < |raw| :: Showable(raw[i].summaries)
    ensures r.Ok? ==> |r.value| == |raw| && forall i | 0 <= i < |raw| :: ShowsGroup(raw[i], r.value[i])
    ensures r.Err? ==> exists k: nat, i: nat :: k < |raw| && FailsAt(raw[k].summaries, i, r.error) &&
                         forall j | 0 <= j < k :: Showable(raw[j].summaries)
  {
    var groups := [];
    for i := 0 to |raw|
      invariant |groups| == i && forall j | 0 <= j < i :: Showable(raw[j].summaries) && ShowsGroup(raw[j], groups[j])
    {
      var group := raw[i];
      var externalIds := seq(|group.externalIds|, j requires 0 <= j < |group.externalIds| =>
        TransformExternalId(group.externalIds[j]));
      var works := TransformSummaries(group.summaries);
      if works.Err? { return Err(works.error); }
      groups := groups + [Service.WorkGroup(group.lastModifiedDate, externalIds, works.value)];
    }
    r := Ok(groups);
  }

  // ---- To ORCID --------------------------------------------------------------------------

  function RecordOf(w: Service.FullWork): Result<Orcid.NewWork, DateError> {
    match ParseDate(w.date)
    case Err(e) => Err(e)
    case Ok(date) =>
      var self := w.selfContributor;
      Ok(Orcid.NewWork(
        w.kind, w.title, w.journal, w.url, date, ExternalIdsOf(w.doi, w.externalIds), w.shortDescription,
        Orcid.Citation(w.citation.kind, w.citation.value),
        RecordsOf(Some(self.orcidId), self.name, self.roles) + Flatten(w.otherContributors)))
  }

  /** What is sent, field by field; the work's own DOI goes first. */
  ghost predicate Sends(w: Service.FullWork, r: Orcid.NewWork) {
    && r.kind == w.kind && r.title == w.title && r.journalTitle == w.journal && r.url == w.url
    && r.shortDescription == w.shortDescription
    && r.citation.kind == w.citation.kind && r.citation.value == w.citation.value
    && |r.externalIds| == |w.externalIds| + 1
    && r.externalIds[0] == Orcid.ExternalId("doi", w.doi, None, "https://doi.org/" + w.doi, "self")
    && (forall i | 0 <= i < |w.externalIds| :: SendsId(w.externalIds[i], r.externalIds[i + 1]))
    && r.contributors ==
       RecordsOf(Some(w.selfContributor.orcidId), w.selfContributor.name, w.selfContributor.roles) +
       Flatten(w.otherContributors)
  }

  ghost predicate SendsId(e: Service.ExternalId, r: Orcid.ExternalId) {
    r.kind == e.kind && r.value == e.value && r.normalized.None? && r.url == e.url && r.relationship == e.relationship
  }

  method TranslateWorkUpdate(update: Service.WorkUpdate) returns (r: Result<Orcid.WorkUpdate, DateError>)
    ensures r.Ok? <==> RecordOf(update.work).Ok?
    ensures r.Ok? ==> r.value == Orcid.WorkUpdate(update.putCode, RecordOf(update.work).value)
    ensures r.Ok? ==> r.value.putCode == update.putCode && Sends(update.work, r.value.work)
    ensures r.Ok? ==> ReadsDate(update.work.date, r.value.work.publicationDate)
    ensures r.Ok? <==> HasDateParts(update.work.date)
  {
    var w := update.work;
    var externalIds := ExternalIdsToOrcid(w.doi, w.externalIds);
    var citation := Orcid.Citation(w.citation.kind, w.citation.value);
    var contributors := TransformContributorSelf(w.selfContributor);
    var others := TransformContributors(w.otherContributors);
    contributors := contributors + others;
    ParsedDate(w.date);
    var date := ParseDate(w.date);
    if date.Err? { return Err(date.error); }
    r := Ok(Orcid.WorkUpdate(update.putCode, Orcid.NewWork(
      w.kind, w.title, w.journal, w.url, date.value, externalIds, w.shortDescription, citation, contributors)));
  }

  /** The record-building part of create_work: what an update sends, without a put code. */
  method CreateWorkRecord(w: Service.FullWork) returns (r: Result<Orcid.NewWork, DateError>)
    ensures r == RecordOf(w)
    ensures r.Ok? ==> Sends(w, r.value) && ReadsDate(w.date, r.value.publicationDate)
    ensures r.Ok? <==> HasDateParts(w.date)
  {
    var externalIds := ExternalIdsToOrcid(w.doi, w.externalIds);
    var citation := Orcid.Citation(w.citation.kind, w.citation.value);
    var contributors := TransformContributorSelf(w.selfContributor);
    var others := TransformContributors(w.otherContributors);
    contributors := contributors + others;
    ParsedDate(w.date);
    var date := ParseDate(w.date);
    if date.Err? { return Err(date.error); }
    r := Ok(Orcid.NewWork(
      w.kind, w.title, w.journal, w.url, date.value, externalIds, w.shortDescription, citation, contributors));
  }

  // ---- There and back --------------------------------------------------------------------

  /** ORCID keeps what it was sent and adds its own data. */
  function Kept(w: Orcid.NewWork, meta: Orcid.Persisted): Orcid.Work {
    Orcid.Work(meta, w.kind, w.title, Some(w.journalTitle), w.url, w.publicationDate, w.externalIds,
               Some(w.shortDescription), Some(w.citation), w.contributors)
  }

  ghost predicate ComesBackAs(profile: Orcid.Profile, sent: Service.FullWork, meta: Orcid.Persisted,
                              back: Service.FullWork) {
    && RecordOf(sent).Ok?
    && WorkOf(profile, Kept(RecordOf(sent).value, meta)) ==
       Ok(Service.Work(meta.putCode, meta.createdDate, meta.lastModifiedDate, meta.source, back))
  }

  function Named(w: Service.FullWork, name: string): Service.FullWork {
    w.(selfContributor := w.selfContributor.(name := name))
  }

  ghost predicate RoundTrips(profile: Orcid.Profile, w: Service.FullWork) {
    && profile.name.Some?
    && w.selfContributor.orcidId == profile.path
    && Distinguishable(w.otherContributors, profile.path)
    && NoSelfDois(w.externalIds)
    && IsNormal(w.date)
  }

  /**
   A work comes back from ORCID as it was sent, with some name for its owner, exactly when the profile shows a name, the
   work's owner is the profile's, its other contributors can be told apart, none of its external ids is a second self
   DOI and its date is in normal form; the name is then the one to show. So it comes back unchanged exactly when that
   is the name it was sent with.
   */
  lemma ExactRoundTripIff(profile: Orcid.Profile, w: Service.FullWork, meta: Orcid.Persisted)
    ensures forall name :: ComesBackAs(profile, w, meta, Named(w, name)) <==>
              RoundTrips(profile, w) && IsShownName(profile.name.value, name)
    ensures ComesBackAs(profile, w, meta, w) <==>
            RoundTrips(profile, w) && IsShownName(profile.name.value, w.selfContributor.name)
  {
    forall name ensures ComesBackAs(profile, w, meta, Named(w, name)) <==>
                        RoundTrips(profile, w) && IsShownName(profile.name.value, name) {
      ComesBackNamedIff(profile, w, meta, name);
    }
    assert w == Named(w, w.selfContributor.name);
  }

  lemma ComesBackNamedIff(profile: Orcid.Profile, w: Service.FullWork, meta: Orcid.Persisted, name: string)
    ensures ComesBackAs(profile, w, meta, Named(w, name)) <==>
            RoundTrips(profile, w) && IsShownName(profile.name.value, name)
  {
    SentIdsPartition(w.doi, w.externalIds);
    PrintParseIff(w.date);
    ContributorsRoundTripIff(w.selfContributor, w.otherContributors);
    assert profile.name.Some? ==> (IsShownName(profile.name.value, name) <==> name == ProfileName(profile.name.value));
  }

  /**
   A work read from ORCID, sent back and read again is the same work exactly when its date is in normal form; it is
   whenever the parts of ORCID's date hold no slash.
   */
  lemma NormalFormIff(profile: Orcid.Profile, raw: Orcid.Work)
    requires WorkOf(profile, raw).Ok?
    ensures var w := WorkOf(profile, raw).value.work;
            && (ComesBackAs(profile, w, raw.meta, w) <==> IsNormal(w.date))
            && (IsSlashFree(raw.publicationDate) ==> IsNormal(w.date))
  {
    var w := WorkOf(profile, raw).value.work;
    ExactRoundTripIff(profile, w, raw.meta);
    GroupsAreDistinguishable(raw.contributors, profile.path);
    OthersAreNoSelfDois(raw.externalIds);
    if IsSlashFree(raw.publicationDate) { SlashFreePrintsNormal(raw.publicationDate); }
  }

  /** Which works can be shown at all. */
  lemma ShownIff(profile: Orcid.Profile, raw: Orcid.Work)
    ensures WorkOf(profile, raw).Ok? <==>
            && raw.journalTitle.Some? && raw.citation.Some? && raw.shortDescription.Some? && profile.name.Some?
            && HasOneSelfDoi(raw.externalIds)
  {
    OneSelfDoiIff(raw.externalIds);
  }
}
