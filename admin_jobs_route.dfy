/** `GET` and `POST /api/admin/jobs`: the HR-only listing and creation of
    postings. The session is the outcome of `getSession()`. */
module AdminJobsRoute {
  import opened Optional
  import opened Text
  import opened Auth
  import opened Jobs
  import opened Http

  /** The one account allowed to manage postings. */
  const HrEmail: string := "hr@navagathatech.com"

  const Unauthorized: Response := Response(401, Message("Unauthorized"))

  /** The guard `!session || session.email !== HrEmail`, negated: an exact,
      case-sensitive match on the designated address. */
  predicate IsHr(session: Option<Session>) {
    session.Some? && session.value.email == HrEmail
  }

  /** A session cookie signed for an address authorises exactly when the
      address is the HR address, as long as the token is still valid. */
  lemma TokenAuthorizesOnlyHr(email: string, issuedMs: nat, nowMs: nat)
    requires nowMs + 1000 <= issuedMs + SessionLifetimeSec * 1000
    ensures IsHr(ReadSession(Some(SignSession(email, issuedMs)), nowMs)) <==> email == HrEmail
  {
    SessionLastsADay(email, issuedMs, nowMs);
  }

  /** The slug of a title, `title.toLowerCase().replace(/ /g, "-")`: no
      spaces, no capitals, the same length, and every other character kept. */
  function DeriveSlug(title: string): (slug: string)
    ensures |slug| == |title|
    ensures ' ' !in slug
    ensures forall i :: 0 <= i < |slug| ==> !IsUpperAscii(slug[i])
    ensures forall i :: 0 <= i < |slug| && title[i] != ' ' && !IsUpperAscii(title[i]) ==> slug[i] == title[i]
    ensures forall i :: 0 <= i < |slug| && title[i] == ' ' ==> slug[i] == '-'
    ensures forall i :: 0 <= i < |slug| && IsUpperAscii(title[i]) ==> slug[i] == LowerChar(title[i])
  {
    SpacesToHyphens(ToLower(title))
  }

  /** A slug is its own slug. */
  lemma DeriveSlugIdempotent(title: string)
    ensures DeriveSlug(DeriveSlug(title)) == DeriveSlug(title)
  {
    var s := DeriveSlug(title);
    assert forall i :: 0 <= i < |s| ==> DeriveSlug(s)[i] == s[i];
  }

  lemma DeriveSlugExamples()
    ensures DeriveSlug("QA Engineer") == "qa-engineer"
    ensures DeriveSlug("Senior QA Engineer") == "senior-qa-engineer"
  {
    var a := DeriveSlug("QA Engineer");
    assert forall i :: 0 <= i < |a| ==> a[i] == "qa-engineer"[i];
    var b := DeriveSlug("Senior QA Engineer");
    assert forall i :: 0 <= i < |b| ==> b[i] == "senior-qa-engineer"[i];
  }

  /** The JSON body of a new posting. Its `id` and `slug`, if any, are
      overridden; a missing title makes the handler throw. */
  datatype NewJobRequest = NewJobRequest(
    id: Option<string>,
    slug: Option<string>,
    title: Option<string>,
    department: string,
    location: string,
    jobType: string,
    description: string,
    overview: string,
    responsibilities: seq<string>,
    requirements: seq<string>,
    benefits: seq<string>)

  /** `{ ...body, slug: DeriveSlug(body.title) }`, as handed to `addJob`. */
  function DraftFor(body: NewJobRequest): JobDraft
    requires body.title.Some?
  {
    JobDraft(DeriveSlug(body.title.value), body.title.value, body.department, body.location,
             body.jobType, body.description, body.overview, body.responsibilities,
             body.requirements, body.benefits)
  }

  /** A created posting takes its slug from the title and its id from the
      clock, whatever slug and id the body carried. */
  lemma CreatedPostingIgnoresBodyIdAndSlug(body: NewJobRequest, now: nat)
    requires body.title.Some?
    ensures WithId(DraftFor(body), NatToDecimal(now)).slug == DeriveSlug(body.title.value)
    ensures WithId(DraftFor(body), NatToDecimal(now)).id == NatToDecimal(now)
    ensures WithId(DraftFor(body), NatToDecimal(now)).title == body.title.value
  {
  }

  /** `GET`: the whole collection, in order, for HR only. */
  method Get(repo: JobRepository, session: Option<Session>, storage: Storage) returns (resp: Response)
    ensures !IsHr(session) ==> resp == Unauthorized
    ensures IsHr(session) && !storage.readOk ==> resp == Response(500, Message("Failed to load jobs"))
    ensures IsHr(session) && storage.readOk ==> resp == Response(200, JobsPayload(repo.jobs))
  {
    if !IsHr(session) {
      return Unauthorized;
    }
    if !storage.readOk {
      return Response(500, Message("Failed to load jobs"));
    }
    resp := Response(200, JobsPayload(repo.jobs));
  }

  /** `POST`: for HR only, append one posting built from the body and
      return it; any failure leaves the collection as it was. */
  method Post(repo: JobRepository, session: Option<Session>, body: Option<NewJobRequest>,
              now: nat, storage: Storage)
    returns (resp: Response)
    modifies repo
    ensures !IsHr(session) ==> resp == Unauthorized && repo.jobs == old(repo.jobs)
    ensures IsHr(session) &&
            (body.None? || body.value.title.None? || !storage.readOk || !storage.writeOk) ==>
              resp == Response(500, Message("Failed to create job")) && repo.jobs == old(repo.jobs)
    ensures IsHr(session) && body.Some? && body.value.title.Some? && storage.readOk && storage.writeOk ==>
              var created := WithId(DraftFor(body.value), NatToDecimal(now));
              repo.jobs == old(repo.jobs) + [created] && resp == Response(200, JobPayload(created))
  {
    if !IsHr(session) {
      return Unauthorized;
    }
    if body.None? || body.value.title.None? || !storage.readOk || !storage.writeOk {
      // an unparsable body, `body.title.toLowerCase()` on a missing title, or
      // a failing read or save: the handler throws before the document changes
      return Response(500, Message("Failed to create job"));
    }
    var created := repo.AddJob(DraftFor(body.value), now);
    resp := Response(200, JobPayload(created));
  }
}
