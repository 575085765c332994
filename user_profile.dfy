/**
 * app/user/profile/page.tsx: a job seeker's resumes, certificates and
 * applications, each list fetched on its own, and the delete dialog for
 * resumes and certificates.
 */
module UserProfilePage {
  import opened Common
  import opened Seqs

  datatype Resume = Resume(id: string, resumeName: string)
  datatype Certificate = Certificate(id: string, certificateName: string)
  datatype Application = Application(id: string, jobPostId: string)

  /** The row a delete button was pressed on: its kind ("resume" or "certificate") and id. */
  datatype DeleteTarget = DeleteTarget(kind: string, id: string)

  /** The backend calls the page makes. */
  datatype ProfileCall =
    | GetUser(userId: Option<string>)
    | GetResumes(userId: Option<string>)
    | GetCertificates
    | GetApplications
    | DeleteResume(id: string)
    | DeleteCertificate(id: string)

  /** A list fetch with its own fallback (lines 65-87): the payload, or [] after a failure. */
  function OrEmpty<T>(fetched: Result<seq<T>>): (r: seq<T>)
    ensures fetched.Ok? ==> r == fetched.value
    ensures fetched.Err? ==> r == []
  {
    if fetched.Ok? then fetched.value else []
  }

  function ResumeKept(id: string): Resume -> bool
  {
    (r: Resume) => r.id != id
  }

  function CertificateKept(id: string): Certificate -> bool
  {
    (c: Certificate) => c.id != id
  }

  /** `prev.filter(resume => resume.id !== id)` (lines 105-107). */
  function WithoutResume(resumes: seq<Resume>, id: string): (r: seq<Resume>)
    ensures IsSubseq(r, resumes)
    ensures forall x :: x in r ==> x.id != id
    ensures forall x :: x in resumes ==> (x in r <==> x.id != id)
  {
    FilterSeq(resumes, ResumeKept(id))
  }

  /** `prev.filter(certificate => certificate.id !== id)` (lines 110-112). */
  function WithoutCertificate(certificates: seq<Certificate>, id: string): (r: seq<Certificate>)
    ensures IsSubseq(r, certificates)
    ensures forall x :: x in r ==> x.id != id
    ensures forall x :: x in certificates ==> (x in r <==> x.id != id)
  {
    FilterSeq(certificates, CertificateKept(id))
  }

  /** Removing an id a second time changes nothing, and a list without that id is left alone. */
  lemma {:induction false} RemovalIdempotent(resumes: seq<Resume>, id: string)
    ensures WithoutResume(WithoutResume(resumes, id), id) == WithoutResume(resumes, id)
    ensures (forall x :: x in resumes ==> x.id != id) ==> WithoutResume(resumes, id) == resumes
  {
  }

  class ProfilePage {
    var resumes: seq<Resume>
    var certificates: seq<Certificate>
    var applications: seq<Application>
    var loading: bool
    var deleteTarget: Option<DeleteTarget>
    var calls: seq<ProfileCall>
    var navigations: seq<Target>

    /** The initial state (lines 42-49). */
    constructor ()
      ensures resumes == [] && certificates == [] && applications == []
      ensures loading && deleteTarget == None && calls == [] && navigations == []
    {
      resumes := [];
      certificates := [];
      applications := [];
      loading := true;
      deleteTarget := None;
      calls := [];
      navigations := [];
    }

    /**
     * fetchData (lines 51-93). Without a token, or with a role other than
     * JobSeeker, go to "/" and fetch nothing. Otherwise fetch the user; if
     * that fails no list is fetched. Each list falls back to [] on its own.
     * Loading ends on every path.
     */
    method FetchData(token: Option<string>, role: Option<string>, userId: Option<string>, user: Outcome,
                     fetchedResumes: Result<seq<Resume>>, fetchedCertificates: Result<seq<Certificate>>,
                     fetchedApplications: Result<seq<Application>>)
      modifies this`resumes, this`certificates, this`applications, this`loading, this`calls, this`navigations
      ensures !loading
      ensures !(Present(token) && role == Some("JobSeeker")) ==>
                navigations == old(navigations) + [PathOnly("/")] && calls == old(calls) &&
                resumes == old(resumes) && certificates == old(certificates) && applications == old(applications)
      ensures Present(token) && role == Some("JobSeeker") ==> navigations == old(navigations)
      ensures Present(token) && role == Some("JobSeeker") && user.Failed? ==>
                calls == old(calls) + [GetUser(userId)] &&
                resumes == old(resumes) && certificates == old(certificates) && applications == old(applications)
      ensures Present(token) && role == Some("JobSeeker") && user.Done? ==>
                calls == old(calls) + [GetUser(userId), GetResumes(userId), GetCertificates, GetApplications] &&
                resumes == OrEmpty(fetchedResumes) && certificates == OrEmpty(fetchedCertificates) &&
                applications == OrEmpty(fetchedApplications)
    {
      if !Present(token) || role != Some("JobSeeker") {
        navigations := navigations + [PathOnly("/")];
        loading := false;
        return;
      }
      calls := calls + [GetUser(userId)];
      if user.Done? {
        calls := calls + [GetResumes(userId)];
        resumes := if fetchedResumes.Ok? then fetchedResumes.value else [];
        calls := calls + [GetCertificates];
        certificates := if fetchedCertificates.Ok? then fetchedCertificates.value else [];
        calls := calls + [GetApplications];
        applications := if fetchedApplications.Ok? then fetchedApplications.value else [];
      }
      loading := false;
    }

    /** A row's delete button (lines 167 and 218): remember the row; this opens the dialog. */
    method SelectForDelete(kind: string, id: string)
      modifies this`deleteTarget
      ensures deleteTarget == Some(DeleteTarget(kind, id))
    {
      deleteTarget := Some(DeleteTarget(kind, id));
    }

    /** The dialog's cancel button and its close (lines 284 and 295). */
    method Dismiss()
      modifies this`deleteTarget
      ensures deleteTarget == None
    {
      deleteTarget := None;
    }

    /**
     * handleDelete (lines 99-119): nothing without a target. A resume target
     * deletes the resume and, on success, drops every resume with that id; a
     * certificate target does the same to certificates; any other kind calls
     * nothing. The target is cleared after every attempt.
     */
    method HandleDelete(outcome: Outcome)
      modifies this`resumes, this`certificates, this`deleteTarget, this`calls
      ensures old(deleteTarget).None? ==>
                deleteTarget == None && calls == old(calls) &&
                resumes == old(resumes) && certificates == old(certificates)
      ensures old(deleteTarget).Some? ==> deleteTarget == None
      ensures old(deleteTarget).Some? && old(deleteTarget).value.kind == "resume" ==>
                calls == old(calls) + [DeleteResume(old(deleteTarget).value.id)] &&
                certificates == old(certificates) &&
                resumes == (if outcome.Done? then WithoutResume(old(resumes), old(deleteTarget).value.id) else old(resumes))
      ensures old(deleteTarget).Some? && old(deleteTarget).value.kind == "certificate" ==>
                calls == old(calls) + [DeleteCertificate(old(deleteTarget).value.id)] &&
                resumes == old(resumes) &&
                certificates == (if outcome.Done? then WithoutCertificate(old(certificates), old(deleteTarget).value.id)
                                 else old(certificates))
      ensures old(deleteTarget).Some? && old(deleteTarget).value.kind != "resume" &&
              old(deleteTarget).value.kind != "certificate" ==>
                calls == old(calls) && resumes == old(resumes) && certificates == old(certificates)
    {
      if deleteTarget.None? {
        return;
      }
      var target := deleteTarget.value;
      if target.kind == "resume" {
        calls := calls + [DeleteResume(target.id)];
        if outcome.Done? {
          resumes := WithoutResume(resumes, target.id);
        }
      } else if target.kind == "certificate" {
        calls := calls + [DeleteCertificate(target.id)];
        if outcome.Done? {
          certificates := WithoutCertificate(certificates, target.id);
        }
      }
      deleteTarget := None;
    }
  }
}
