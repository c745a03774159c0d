/** The job postings (`lib/jobs.ts`). The JSON document the source rereads and
    rewrites on every call is the `jobs` field of a `JobRepository`. */
module Jobs {
  import opened Optional
  import opened Text

  /** A job posting; `jobType` is the source's `type` field. */
  datatype Job = Job(
    id: string,
    slug: string,
    title: string,
    department: string,
    location: string,
    jobType: string,
    description: string,
    overview: string,
    responsibilities: seq<string>,
    requirements: seq<string>,
    benefits: seq<string>)

  /** A posting without its id (`Omit<Job, 'id'>`), as `addJob` receives it. */
  datatype JobDraft = JobDraft(
    slug: string,
    title: string,
    department: string,
    location: string,
    jobType: string,
    description: string,
    overview: string,
    responsibilities: seq<string>,
    requirements: seq<string>,
    benefits: seq<string>)

  /** `{ ...draft, id }`. */
  function WithId(d: JobDraft, id: string): Job {
    Job(id, d.slug, d.title, d.department, d.location, d.jobType, d.description,
        d.overview, d.responsibilities, d.requirements, d.benefits)
  }

  /** Every field of the posting but its id. */
  function DraftOf(j: Job): JobDraft {
    JobDraft(j.slug, j.title, j.department, j.location, j.jobType, j.description,
             j.overview, j.responsibilities, j.requirements, j.benefits)
  }

  /** Attaching an id keeps every field of the draft and nothing else, and
      a posting is its draft plus its id. */
  lemma WithIdRoundTrip(d: JobDraft, id: string, j: Job)
    ensures WithId(d, id).id == id && DraftOf(WithId(d, id)) == d
    ensures WithId(DraftOf(j), j.id) == j
  {
  }

  /** Postings created at different milliseconds get different ids
      (`Date.now().toString()`); two created in the same millisecond collide. */
  lemma CreationIdsDiffer(d1: JobDraft, d2: JobDraft, t1: nat, t2: nat)
    ensures WithId(d1, NatToDecimal(t1)).id == WithId(d2, NatToDecimal(t2)).id <==> t1 == t2
  {
    if NatToDecimal(t1) == NatToDecimal(t2) {
      DecimalInjective(t1, t2);
    }
  }

  /** `Partial<Job>`: each field either absent or carrying a new value. */
  datatype JobUpdate = JobUpdate(
    id: Option<string>,
    slug: Option<string>,
    title: Option<string>,
    department: Option<string>,
    location: Option<string>,
    jobType: Option<string>,
    description: Option<string>,
    overview: Option<string>,
    responsibilities: Option<seq<string>>,
    requirements: Option<seq<string>>,
    benefits: Option<seq<string>>)

  const NoChanges: JobUpdate :=
    JobUpdate(None, None, None, None, None, None, None, None, None, None, None)

  /** `{ ...job, ...updates }`: a field present in the update replaces the
      stored one wholesale, an absent field is kept. */
  function Merge(j: Job, u: JobUpdate): Job {
    Job(u.id.GetOr(j.id), u.slug.GetOr(j.slug), u.title.GetOr(j.title),
        u.department.GetOr(j.department), u.location.GetOr(j.location),
        u.jobType.GetOr(j.jobType), u.description.GetOr(j.description),
        u.overview.GetOr(j.overview), u.responsibilities.GetOr(j.responsibilities),
        u.requirements.GetOr(j.requirements), u.benefits.GetOr(j.benefits))
  }

  /** The update that applying `u` and then `v` amounts to. */
  function Then(u: JobUpdate, v: JobUpdate): JobUpdate {
    JobUpdate(v.id.Or(u.id), v.slug.Or(u.slug), v.title.Or(u.title),
              v.department.Or(u.department), v.location.Or(u.location),
              v.jobType.Or(u.jobType), v.description.Or(u.description),
              v.overview.Or(u.overview), v.responsibilities.Or(u.responsibilities),
              v.requirements.Or(u.requirements), v.benefits.Or(u.benefits))
  }

  /** An empty update changes nothing; applying the same update twice is
      the same as applying it once; two updates in a row are one combined
      update. */
  lemma MergeLaws(j: Job, u: JobUpdate, v: JobUpdate)
    ensures Merge(j, NoChanges) == j
    ensures Merge(Merge(j, u), u) == Merge(j, u)
    ensures Merge(Merge(j, u), v) == Merge(j, Then(u, v))
  {
  }

  /** The merge does not derive anything: a new title leaves the slug as it
      was unless the update carries a slug, and an id in the update
      overwrites the stored id. */
  lemma MergeDerivesNothing(j: Job, u: JobUpdate)
    ensures u.slug.None? ==> Merge(j, u).slug == j.slug
    ensures u.id.Some? ==> Merge(j, u).id == u.id.value
    ensures u.id.None? ==> Merge(j, u).id == j.id
  {
  }

  /** `Array.prototype.findIndex`: the first position whose element
      satisfies `p`, if any. */
  function FirstWhere<T>(s: seq<T>, p: T -> bool): (r: Option<nat>)
    ensures r.Some? ==> r.value < |s| && p(s[r.value]) && forall k :: 0 <= k < r.value ==> !p(s[k])
    ensures r.None? ==> forall k :: 0 <= k < |s| ==> !p(s[k])
    decreases |s|
  {
    if s == [] then None
    else if p(s[0]) then Some(0)
    else match FirstWhere(s[1..], p)
      case None => None
      case Some(i) => Some(i + 1)
  }

  /** `jobs.find(j => j.slug === slug)`. */
  function FindBySlug(jobs: seq<Job>, slug: string): Option<Job> {
    match FirstWhere(jobs, (j: Job) => j.slug == slug)
    case None => None
    case Some(i) => Some(jobs[i])
  }

  /** `jobs.findIndex(j => j.id === id)`. */
  function IndexOfId(jobs: seq<Job>, id: string): Option<nat> {
    FirstWhere(jobs, (j: Job) => j.id == id)
  }

  predicate HasId(jobs: seq<Job>, id: string) {
    exists j :: j in jobs && j.id == id
  }

  /** `jobs.filter(j => j.id !== id)`. */
  function WithoutId(jobs: seq<Job>, id: string): (r: seq<Job>)
    ensures forall j :: j in r ==> j in jobs && j.id != id
    ensures forall j :: j in jobs && j.id != id ==> j in r
    ensures |r| <= |jobs|
    ensures |r| == |jobs| <==> !HasId(jobs, id)
    ensures !HasId(jobs, id) ==> r == jobs
    decreases |jobs|
  {
    if jobs == [] then []
    else
      var rest := WithoutId(jobs[1..], id);
      assert HasId(jobs, id) <==> jobs[0].id == id || HasId(jobs[1..], id) by {
        assert forall j :: j in jobs <==> j == jobs[0] || j in jobs[1..];
      }
      if jobs[0].id == id then rest else [jobs[0]] + rest
  }

  /** The filter keeps the survivors in their original order: it works
      piece by piece over a concatenation. */
  lemma {:induction false} WithoutIdAppend(a: seq<Job>, b: seq<Job>, id: string)
    ensures WithoutId(a + b, id) == WithoutId(a, id) + WithoutId(b, id)
    decreases |a|
  {
    if a != [] {
      assert (a + b)[0] == a[0];
      assert (a + b)[1..] == a[1..] + b;
      WithoutIdAppend(a[1..], b, id);
    } else {
      assert a + b == b;
    }
  }

  /** Deleting twice is the same as deleting once. */
  lemma WithoutIdIdempotent(jobs: seq<Job>, id: string)
    ensures WithoutId(WithoutId(jobs, id), id) == WithoutId(jobs, id)
  {
  }

  /** After `addJob`, looking up the new slug finds the new posting unless
      an earlier posting already has that slug (slugs are not unique), in
      which case the earlier one is found. */
  lemma AddThenFindBySlug(jobs: seq<Job>, d: JobDraft, id: string)
    ensures FindBySlug(jobs + [WithId(d, id)], d.slug) ==
              if FindBySlug(jobs, d.slug).Some? then FindBySlug(jobs, d.slug) else Some(WithId(d, id))
  {
    var all := jobs + [WithId(d, id)];
    var p := (j: Job) => j.slug == d.slug;
    assert forall k :: 0 <= k < |jobs| ==> all[k] == jobs[k];
    assert p(all[|jobs|]);
  }

  /** The persisted job collection. */
  class JobRepository {
    var jobs: seq<Job>

    constructor (stored: seq<Job>)
      ensures jobs == stored
    {
      jobs := stored;
    }

    /** `getJobBySlug(slug)`: the first posting with that slug, or nothing
        when no posting has it. */
    method GetJobBySlug(slug: string) returns (r: Option<Job>)
      ensures r.None? <==> forall j :: j in jobs ==> j.slug != slug
      ensures r.Some? ==> exists i :: 0 <= i < |jobs| && jobs[i] == r.value && r.value.slug == slug &&
                            forall k :: 0 <= k < i ==> jobs[k].slug != slug
    {
      r := FindBySlug(jobs, slug);
      if r.None? {
        forall j | j in jobs ensures j.slug != slug {
          var k :| 0 <= k < |jobs| && jobs[k] == j;
        }
      }
    }

    /** `addJob(draft)` at time `now`: append the draft with the id
        `now.toString()` and return the appended posting. */
    method AddJob(draft: JobDraft, now: nat) returns (created: Job)
      modifies this
      ensures created == WithId(draft, NatToDecimal(now))
      ensures jobs == old(jobs) + [created]
    {
      created := WithId(draft, NatToDecimal(now));
      jobs := jobs + [created];
    }

    /** `updateJob(id, updates)`: merge the update into the first posting
        with that id and return the merged posting; with no such posting,
        return nothing and change nothing. */
    method UpdateJob(id: string, u: JobUpdate) returns (r: Option<Job>)
      modifies this
      ensures r.None? <==> !HasId(old(jobs), id)
      ensures r.None? ==> jobs == old(jobs)
      ensures r.Some? ==> IndexOfId(old(jobs), id).Some? &&
                            var i := IndexOfId(old(jobs), id).value;
                            jobs == old(jobs)[i := Merge(old(jobs)[i], u)] && r.value == jobs[i]
    {
      var index := IndexOfId(jobs, id);
      if index.None? {
        assert !HasId(jobs, id) by {
          forall j | j in jobs ensures j.id != id {
            var k :| 0 <= k < |jobs| && jobs[k] == j;
          }
        }
        return None;
      }
      var i := index.value;
      jobs := jobs[i := Merge(jobs[i], u)];
      r := Some(jobs[i]);
    }

    /** `deleteJob(id)`: drop every posting with that id, keeping the others
        in order, and report whether anything was dropped. */
    method DeleteJob(id: string) returns (removed: bool)
      modifies this
      ensures removed <==> HasId(old(jobs), id)
      ensures jobs == if removed then WithoutId(old(jobs), id) else old(jobs)
    {
      var filtered := WithoutId(jobs, id);
      if |filtered| == |jobs| {
        return false;
      }
      jobs := filtered;
      return true;
    }
  }
}
