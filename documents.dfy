/** The reference documents and the upload policy of
    `upload_files_to_gemini`: which handles a walk over the configured files
    collects, given what happens to each file. */
module Documents {
  import opened ChatTypes

  /** `PDF_FILENAMES`: the fixed reference documents, in upload order. */
  const PdfFilenames: seq<string> := [
    "tuyen_duong_sat_do_thi_hcm.pdf",
    "xe_dap_cong_cong_xe_dien_4_banh_va_xe_buyt_duong_song.pdf",
    "xe_buyt.pdf"
  ]

  /** What happens to one file on one upload attempt: it is not found under
      the documents directory, the remote upload raises, or it yields a
      handle. */
  datatype FileAttempt = Missing | UploadFailed(reason: string) | Uploaded(handle: Handle)

  /** The handles the walk over `filenames` keeps, in file order. */
  function Collected(filenames: seq<string>, attempt: string -> FileAttempt): seq<Handle>
  {
    if filenames == [] then []
    else
      var last := filenames[|filenames| - 1];
      Collected(filenames[..|filenames| - 1], attempt)
        + (match attempt(last) case Uploaded(h) => [h] case _ => [])
  }

  /** Walking two lists one after the other collects the two results in order. */
  lemma {:induction false} CollectedAppend(a: seq<string>, b: seq<string>, attempt: string -> FileAttempt)
    ensures Collected(a + b, attempt) == Collected(a, attempt) + Collected(b, attempt)
    decreases |b|
  {
    if b == [] {
      assert a + b == a;
    } else {
      var init := b[..|b| - 1];
      assert (a + b)[..|a + b| - 1] == a + init;
      CollectedAppend(a, init, attempt);
    }
  }

  /** At most one handle per configured file. */
  lemma {:induction false} CollectedBound(filenames: seq<string>, attempt: string -> FileAttempt)
    ensures |Collected(filenames, attempt)| <= |filenames|
  {
    if filenames != [] {
      CollectedBound(filenames[..|filenames| - 1], attempt);
    }
  }

  /** A handle is collected exactly when some configured file uploads to it. */
  lemma {:induction false} CollectedMembers(filenames: seq<string>, attempt: string -> FileAttempt)
    ensures forall h :: h in Collected(filenames, attempt) <==>
              exists i :: 0 <= i < |filenames| && attempt(filenames[i]) == Uploaded(h)
  {
    if filenames != [] {
      var init := filenames[..|filenames| - 1];
      CollectedMembers(init, attempt);
      assert forall i :: 0 <= i < |init| ==> filenames[i] == init[i];
    }
  }

  /** Nothing is collected exactly when no configured file uploads. */
  lemma CollectedEmptyIff(filenames: seq<string>, attempt: string -> FileAttempt)
    ensures Collected(filenames, attempt) == [] <==>
              forall i :: 0 <= i < |filenames| ==> !attempt(filenames[i]).Uploaded?
  {
    var got := Collected(filenames, attempt);
    CollectedMembers(filenames, attempt);
    forall i | 0 <= i < |filenames| && attempt(filenames[i]).Uploaded?
      ensures attempt(filenames[i]).handle in got
    {
    }
    if got != [] {
      assert got[0] in got;
    }
  }

  /** When every file is present and uploads, there is one handle per file,
      each in its file's position. */
  lemma {:induction false} CollectedAllUploaded(filenames: seq<string>, attempt: string -> FileAttempt)
    requires forall i :: 0 <= i < |filenames| ==> attempt(filenames[i]).Uploaded?
    ensures |Collected(filenames, attempt)| == |filenames|
    ensures forall i :: 0 <= i < |filenames| ==>
              Collected(filenames, attempt)[i] == attempt(filenames[i]).handle
  {
    if filenames != [] {
      var init := filenames[..|filenames| - 1];
      CollectedAllUploaded(init, attempt);
    }
  }
}
