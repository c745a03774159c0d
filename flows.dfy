/** Whole request sequences across the handlers, as a browser and the admin
    page drive them, each on a fresh server. */
module Flows {
  import opened Optional
  import opened Text
  import opened Auth
  import opened Jobs
  import opened Http
  import OtpRoute
  import VerifyRoute
  import AdminJobsRoute
  import AdminJobByIdRoute

  /** HR asks for a code, signs in with the mailed code within five minutes
      and lists the postings; presenting the same code again is refused. */
  method HrSignIn(stored: seq<Job>, askedAt: nat, random: real, signedInAt: nat)
    returns (asked: Response, signedIn: Response, replayed: Response, listing: Response)
    requires 0.0 <= random < 1.0
    requires signedInAt <= askedAt + OtpLifetimeMs
    ensures asked == Response(200, Succeeded)
    ensures signedIn == Response(200, Succeeded)
    ensures replayed == VerifyRoute.Rejected
    ensures listing == Response(200, JobsPayload(stored))
  {
    var store := new OtpStore();
    var jar := new CookieJar();
    var repo := new JobRepository(stored);
    OtpRoute.EmailGuardExamples();
    var mail;
    asked, mail := OtpRoute.Post(store, Some("api-key"), Some(OtpRoute.OtpRequest(Some(AdminJobsRoute.HrEmail))),
                                 askedAt, random, false);
    var request := VerifyRoute.VerifyRequest(Some(AdminJobsRoute.HrEmail), Some(mail.value.code));
    signedIn := VerifyRoute.Post(store, jar, Some(request), signedInAt);
    replayed := VerifyRoute.Post(store, jar, Some(request), signedInAt);
    SessionLastsADay(AdminJobsRoute.HrEmail, signedInAt, signedInAt);
    listing := AdminJobsRoute.Get(repo, jar.GetSession(signedInAt), Storage(true, true));
  }

  /** HR creates "QA Engineer", the public lookup finds it under
      "qa-engineer", and renaming it to "Senior QA Engineer" moves it to
      "senior-qa-engineer" under the same id. */
  method CreateFindRename(stored: seq<Job>, now: nat, details: AdminJobsRoute.NewJobRequest)
    returns (created: Response, found: Option<Job>, renamed: Response)
    requires details.title == Some("QA Engineer")
    requires forall j :: j in stored ==> j.slug != "qa-engineer" && j.id != NatToDecimal(now)
    ensures created.status == 200 && created.body.JobPayload?
    ensures created.body.job.slug == "qa-engineer" && created.body.job.id == NatToDecimal(now)
    ensures found == Some(created.body.job)
    ensures renamed.status == 200 && renamed.body.JobPayload?
    ensures renamed.body.job.title == "Senior QA Engineer" && renamed.body.job.slug == "senior-qa-engineer"
    ensures renamed.body.job.id == NatToDecimal(now)
  {
    var repo := new JobRepository(stored);
    var hr := Some(Session(AdminJobsRoute.HrEmail));
    AdminJobsRoute.DeriveSlugExamples();
    created := AdminJobsRoute.Post(repo, hr, Some(details), now, Storage(true, true));
    var job := created.body.job;
    assert repo.jobs == stored + [job];
    assert repo.jobs[|stored|] == job;
    found := repo.GetJobBySlug("qa-engineer");
    assert found.Some?;
    assert forall k :: 0 <= k < |stored| ==> repo.jobs[k] == stored[k] && repo.jobs[k].slug != "qa-engineer";
    var rename := NoChanges.(title := Some("Senior QA Engineer"));
    assert HasId(repo.jobs, job.id);
    var before := repo.jobs;
    renamed := AdminJobByIdRoute.Patch(repo, hr, job.id, Some(rename), Storage(true, true));
    assert forall k :: 0 <= k < |stored| ==> before[k] == stored[k] && before[k].id != job.id;
  }
}
