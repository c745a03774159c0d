/** `PATCH` and `DELETE /api/admin/jobs/[id]`: the HR-only edit and removal
    of one posting. */
module AdminJobByIdRoute {
  import opened Optional
  import opened Text
  import opened Auth
  import opened Jobs
  import opened Http
  import opened AdminJobsRoute

  /** A key of the update object as JavaScript sees it: missing, present
      but holding `undefined`, or present with a value. */
  datatype SlugEntry = Absent | Undefined | Value(slug: string)

  /** The `slug` entry the PATCH handler, as written, always adds to the
      update: the derived slug when the body has a truthy title, otherwise
      `undefined`. It is never absent. */
  function PatchSlugAsWritten(body: JobUpdate): (e: SlugEntry)
    ensures e != Absent
    ensures e.Value? <==> !Falsy(body.title)
  {
    if !Falsy(body.title) then Value(DeriveSlug(body.title.value)) else Undefined
  }

  /** A posting as the JSON file holds it once the as-written merge has run:
      `JSON.stringify` drops a key whose value is `undefined`, so the slug
      may be missing. */
  datatype RawPosting = RawPosting(
    id: string,
    slug: Option<string>,
    title: string,
    department: string,
    location: string,
    jobType: string,
    description: string,
    overview: string,
    responsibilities: seq<string>,
    requirements: seq<string>,
    benefits: seq<string>)

  /** A well-formed posting as the JSON file holds it. */
  function Raw(j: Job): (p: RawPosting)
    ensures p.id == j.id && p.slug == Some(j.slug) && p.title == j.title
  {
    RawPosting(j.id, Some(j.slug), j.title, j.department, j.location, j.jobType,
               j.description, j.overview, j.responsibilities, j.requirements, j.benefits)
  }

  /** `{ ...stored, ...updates }` where `updates` is the body plus the slug
      entry `e`: an absent key keeps the stored value, an `undefined` one
      removes it, a present value replaces it. */
  function MergeAsWritten(stored: RawPosting, u: JobUpdate, e: SlugEntry): (r: RawPosting)
    ensures e.Absent? ==> r.slug == stored.slug
    ensures e.Undefined? ==> r.slug.None?
    ensures e.Value? ==> r.slug == Some(e.slug)
  {
    RawPosting(u.id.GetOr(stored.id),
               match e case Absent => stored.slug case Undefined => None case Value(s) => Some(s),
               u.title.GetOr(stored.title), u.department.GetOr(stored.department),
               u.location.GetOr(stored.location), u.jobType.GetOr(stored.jobType),
               u.description.GetOr(stored.description), u.overview.GetOr(stored.overview),
               u.responsibilities.GetOr(stored.responsibilities),
               u.requirements.GetOr(stored.requirements), u.benefits.GetOr(stored.benefits))
  }

  /** `updateJob(id, { ...body, slug: ... })` as written: the first posting
      with that id takes the merge; without one the file is unchanged. */
  function UpdateAsWritten(docs: seq<RawPosting>, id: string, body: JobUpdate): seq<RawPosting> {
    match FirstWhere(docs, (p: RawPosting) => p.id == id)
    case None => docs
    case Some(i) => docs[i := MergeAsWritten(docs[i], body, PatchSlugAsWritten(body))]
  }

  /** `jobs.find(j => j.slug === slug)` on the file as written: a posting
      whose slug is missing matches no slug. */
  function FindRawBySlug(docs: seq<RawPosting>, slug: string): Option<RawPosting> {
    match FirstWhere(docs, (p: RawPosting) => p.slug == Some(slug))
    case None => None
    case Some(i) => Some(docs[i])
  }

  /** As written, a PATCH whose body has no title (or an empty one), say
      `{ "location": "Pune" }`, erases the slug of the posting it edits, and
      a lookup by the slug that found the posting before finds nothing
      afterwards. */
  lemma PatchWithoutTitleErasesSlug(docs: seq<RawPosting>, id: string, body: JobUpdate, i: nat)
    requires Falsy(body.title)
    requires i < |docs| && docs[i].id == id
    requires forall k :: 0 <= k < i ==> docs[k].id != id
    requires docs[i].slug.Some?
    requires forall k :: 0 <= k < |docs| && k != i ==> docs[k].slug != docs[i].slug
    ensures FindRawBySlug(docs, docs[i].slug.value) == Some(docs[i])
    ensures |UpdateAsWritten(docs, id, body)| == |docs|
    ensures UpdateAsWritten(docs, id, body)[i].slug.None?
    ensures FindRawBySlug(UpdateAsWritten(docs, id, body), docs[i].slug.value).None?
  {
  }

  /** The as-written merge agrees with the intended one exactly when the
      body has a truthy title; without one, the intended merge keeps the
      stored slug where the as-written one drops it. */
  lemma PatchAsWrittenVersusIntended(j: Job, body: JobUpdate)
    ensures !Falsy(body.title) ==>
      MergeAsWritten(Raw(j), body, PatchSlugAsWritten(body)) == Raw(Merge(j, PatchUpdate(body)))
    ensures Falsy(body.title) ==>
      MergeAsWritten(Raw(j), body, PatchSlugAsWritten(body)).slug.None? &&
      Raw(Merge(j, PatchUpdate(body))).slug == Some(j.slug)
  {
  }

  /** The update handed to `updateJob`, with the slug entry as intended:
      derived from a truthy title, otherwise absent. Every other field is
      the body's. */
  function PatchUpdate(body: JobUpdate): (u: JobUpdate)
    ensures !Falsy(body.title) ==> u.slug == Some(DeriveSlug(body.title.value))
    ensures Falsy(body.title) ==> u.slug.None?
    ensures u.(slug := body.slug) == body
  {
    body.(slug := if !Falsy(body.title) then Some(DeriveSlug(body.title.value)) else None)
  }

  /** With the intended update, a new title brings its slug along and an
      edit without a title keeps the stored slug. */
  lemma PatchKeepsSlugInStep(j: Job, body: JobUpdate)
    ensures !Falsy(body.title) ==> Merge(j, PatchUpdate(body)).slug == DeriveSlug(Merge(j, PatchUpdate(body)).title)
    ensures Falsy(body.title) ==> Merge(j, PatchUpdate(body)).slug == j.slug
  {
  }

  const NotFound: Response := Response(404, Message("Job not found"))

  /** `PATCH`: for HR only, merge the body into the first posting with that
      id and return it; an unknown id is a 404, and a failure leaves the
      collection as it was. */
  method Patch(repo: JobRepository, session: Option<Session>, id: string,
               body: Option<JobUpdate>, storage: Storage)
    returns (resp: Response)
    modifies repo
    ensures !IsHr(session) ==> resp == Unauthorized && repo.jobs == old(repo.jobs)
    ensures IsHr(session) && (body.None? || !storage.readOk) ==>
              resp == Response(500, Message("Failed to update job")) && repo.jobs == old(repo.jobs)
    ensures IsHr(session) && body.Some? && storage.readOk && !HasId(old(repo.jobs), id) ==>
              resp == NotFound && repo.jobs == old(repo.jobs)
    ensures IsHr(session) && body.Some? && storage.readOk && HasId(old(repo.jobs), id) && !storage.writeOk ==>
              resp == Response(500, Message("Failed to update job")) && repo.jobs == old(repo.jobs)
    ensures IsHr(session) && body.Some? && storage.readOk && HasId(old(repo.jobs), id) && storage.writeOk ==>
              var index := IndexOfId(old(repo.jobs), id);
              index.Some? &&
              repo.jobs == old(repo.jobs)[index.value := Merge(old(repo.jobs)[index.value], PatchUpdate(body.value))] &&
              resp == Response(200, JobPayload(repo.jobs[index.value]))
  {
    if !IsHr(session) {
      return Unauthorized;
    }
    if body.None? || !storage.readOk {
      return Response(500, Message("Failed to update job"));
    }
    if !storage.writeOk && HasId(repo.jobs, id) {
      // the save throws; the document keeps its old contents
      return Response(500, Message("Failed to update job"));
    }
    var updated := repo.UpdateJob(id, PatchUpdate(body.value));
    if updated.None? {
      return NotFound;
    }
    resp := Response(200, JobPayload(updated.value));
  }

  /** `DELETE`: for HR only, remove every posting with that id; an unknown
      id is a 404, and a failure leaves the collection as it was. */
  method Delete(repo: JobRepository, session: Option<Session>, id: string, storage: Storage)
    returns (resp: Response)
    modifies repo
    ensures !IsHr(session) ==> resp == Unauthorized && repo.jobs == old(repo.jobs)
    ensures IsHr(session) && !storage.readOk ==>
              resp == Response(500, Message("Failed to delete job")) && repo.jobs == old(repo.jobs)
    ensures IsHr(session) && storage.readOk && !HasId(old(repo.jobs), id) ==>
              resp == NotFound && repo.jobs == old(repo.jobs)
    ensures IsHr(session) && storage.readOk && HasId(old(repo.jobs), id) && !storage.writeOk ==>
              resp == Response(500, Message("Failed to delete job")) && repo.jobs == old(repo.jobs)
    ensures IsHr(session) && storage.readOk && HasId(old(repo.jobs), id) && storage.writeOk ==>
              resp == Response(200, Succeeded) && repo.jobs == WithoutId(old(repo.jobs), id)
  {
    if !IsHr(session) {
      return Unauthorized;
    }
    if !storage.readOk {
      return Response(500, Message("Failed to delete job"));
    }
    if !storage.writeOk && HasId(repo.jobs, id) {
      // the save throws; the document keeps its old contents
      return Response(500, Message("Failed to delete job"));
    }
    var success := repo.DeleteJob(id);
    if !success {
      return NotFound;
    }
    resp := Response(200, Succeeded);
  }
}
