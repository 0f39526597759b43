/**
 * The resume upload screen: the file validator, the three submit guards and
 * the simulated progress indicator that runs while the upload request is in
 * flight.
 *
 * `handleUpload` suspends at `await uploadResume(...)`; the model splits it at
 * that point into StartUpload (everything before the await) and Respond
 * (everything after it). While it is suspended, the 200 ms interval fires:
 * each firing is one call of Tick.
 */
module UploadResume {
  import opened JsValues
  import opened JsStrings

  /** The selected file: its name and its size in bytes. */
  datatype File = File(name: string, size: int)

  const MaxSize: int := 5 * 1024 * 1024
  const Allowed: seq<string> := ["pdf", "doc", "docx"]

  datatype Validation = Valid | Invalid(error: string)

  /** `file.name.split(".").pop().toLowerCase()`. */
  function Extension(name: string): string
  {
    ToLower(AfterLast(name, '.'))
  }

  /** The extension never contains a dot, so it is the last dot-separated part of the name. */
  lemma ExtensionHasNoDot(name: string)
    ensures '.' !in Extension(name)
  {
    AfterLastShape(name, '.');
    var ext := Extension(name);
    forall i | 0 <= i < |ext|
      ensures ext[i] != '.'
    {
      assert ext[i] == LowerChar(AfterLast(name, '.')[i]);
    }
  }

  /** `validateFile`: a missing file first, then the extension, then the size. */
  function ValidateFile(file: Option<File>): (v: Validation)
  {
    if file.None? then Invalid("Please select a file.")
    else if Extension(file.value.name) !in Allowed then Invalid("Only PDF or DOCX allowed.")
    else if file.value.size > MaxSize then Invalid("File exceeds 5MB limit.")
    else Valid
  }

  /**
   * The validator's verdict: a file is accepted exactly when its extension is
   * allowed and its size is at most 5 MiB; the error names the first failing
   * check in the order missing, extension, size.
   */
  lemma ValidateFileVerdict(file: Option<File>)
    ensures ValidateFile(file).Valid? <==>
      file.Some? && Extension(file.value.name) in Allowed && file.value.size <= MaxSize
    ensures file.None? ==> ValidateFile(file) == Invalid("Please select a file.")
    ensures file.Some? && Extension(file.value.name) !in Allowed ==>
      ValidateFile(file) == Invalid("Only PDF or DOCX allowed.")
    ensures file.Some? && Extension(file.value.name) in Allowed && file.value.size > MaxSize ==>
      ValidateFile(file) == Invalid("File exceeds 5MB limit.")
  {
  }

  /** The text after the last separator is what follows a separator that has none after it. */
  lemma {:induction false} AfterLastOfJoin(s: string, c: char, t: string)
    requires c !in t
    ensures AfterLast(s + [c] + t, c) == t
    decreases |t|
  {
    var w := s + [c] + t;
    if t == [] {
      assert w[|w| - 1] == c;
    } else {
      assert w[..|w| - 1] == s + [c] + t[..|t| - 1];
      assert t[|t| - 1] in t;
      assert forall x :: x in t[..|t| - 1] ==> x in t;
      AfterLastOfJoin(s, c, t[..|t| - 1]);
      assert t[..|t| - 1] + [t[|t| - 1]] == t;
    }
  }

  /** The extension is the lower-cased text after the last dot, whatever precedes that dot. */
  lemma ExtensionAfterLastDot(base: string, ext: string)
    requires '.' !in ext
    ensures Extension(base + "." + ext) == ToLower(ext)
  {
    AfterLastOfJoin(base, '.', ext);
  }

  /** A name without a dot is its own extension, so a file named just "pdf" passes the type check. */
  lemma ExtensionOfDotlessName(name: string)
    requires '.' !in name
    ensures Extension(name) == ToLower(name)
  {
    AfterLastShape(name, '.');
  }

  /** Upper-case extensions are accepted: any name ending in ".PDF" of at most 5 MiB is valid. */
  lemma UpperCasePdfAccepted(base: string, size: int)
    requires size <= MaxSize
    ensures ValidateFile(Some(File(base + ".PDF", size))) == Valid
  {
    assert base + ".PDF" == base + "." + "PDF";
    ExtensionAfterLastDot(base, "PDF");
    assert ToLower("PDF") == "pdf";
    assert Allowed[0] == "pdf";
  }

  /** The size limit is inclusive: exactly 5 MiB passes, one byte more fails. */
  lemma SizeLimitInclusive(base: string)
    ensures ValidateFile(Some(File(base + ".pdf", 5242880))) == Valid
    ensures ValidateFile(Some(File(base + ".pdf", 5242881))) == Invalid("File exceeds 5MB limit.")
  {
    assert base + ".pdf" == base + "." + "pdf";
    ExtensionAfterLastDot(base, "pdf");
    assert ToLower("pdf") == "pdf";
    assert Allowed[0] == "pdf";
  }

  /** An extension outside the list is reported before the size is looked at. */
  lemma ExtensionCheckedBeforeSize(base: string, size: int)
    ensures ValidateFile(Some(File(base + ".exe", size))) == Invalid("Only PDF or DOCX allowed.")
  {
    assert base + ".exe" == base + "." + "exe";
    ExtensionAfterLastDot(base, "exe");
    assert ToLower("exe") == "exe";
  }

  /** One firing of the interval: `prev < 90 ? prev + 10 : prev`. */
  function Advance(p: int): int
  {
    if p < 90 then p + 10 else p
  }

  /** The progress after `n` firings starting from `p`. */
  function AfterTicks(n: nat, p: int): int
  {
    if n == 0 then p else Advance(AfterTicks(n - 1, p))
  }

  /** Starting from 0, progress after n firings is min(10 n, 90): it climbs in steps of ten and stops at 90. */
  lemma {:induction false} TicksFromZero(n: nat)
    ensures AfterTicks(n, 0) == if 10 * n < 90 then 10 * n else 90
  {
    if n > 0 {
      TicksFromZero(n - 1);
    }
  }

  /** The progress values the indicator can take: a multiple of ten up to 90, or 100 after a response. */
  predicate ProgressShape(p: int)
  {
    p == 100 || (0 <= p <= 90 && p % 10 == 0)
  }

  /** Firings never lower the progress, and from a shaped value at most 90 they stay shaped and at most 90. */
  lemma {:induction false} TicksMonotone(n: nat, p: int)
    ensures AfterTicks(n, p) >= p
    ensures ProgressShape(p) && p <= 90 ==> ProgressShape(AfterTicks(n, p)) && AfterTicks(n, p) <= 90
  {
    if n > 0 {
      TicksMonotone(n - 1, p);
    }
  }

  /** What pressing the upload button did. */
  datatype StartOutcome =
    | Blocked
    | NavigateTo(path: string)
    | Submitted(email: string, file: File, description: string)

  class UploadScreen {
    var file: Option<File>
    var desc: string
    var message: string
    var error: JsVal
    var loading: bool
    var uploadProgress: int
    /** Progress intervals started and not yet cleared. */
    var liveIntervals: nat

    /** While the request is in flight its own interval is live and progress stays at or below 90. */
    ghost predicate Valid()
      reads this
    {
      && ProgressShape(uploadProgress)
      && (loading ==> liveIntervals >= 1 && uploadProgress <= 90)
    }

    constructor ()
      ensures Valid()
      ensures file == None && desc == "" && message == "" && error == Str("")
      ensures !loading && uploadProgress == 0 && liveIntervals == 0
    {
      file, desc, message, error := None, "", "", Str("");
      loading, uploadProgress, liveIntervals := false, 0, 0;
    }

    /** `handleFileSelect`: a rejected file sets the error and clears the selection; an accepted one replaces it and clears both messages. */
    method SelectFile(selected: Option<File>)
      requires Valid()
      modifies this
      ensures Valid()
      ensures ValidateFile(selected).Invalid? ==>
        error == Str(ValidateFile(selected).error) && file == None && message == old(message)
      ensures ValidateFile(selected).Valid? ==>
        file == selected && error == Str("") && message == ""
      ensures desc == old(desc) && loading == old(loading)
      ensures uploadProgress == old(uploadProgress) && liveIntervals == old(liveIntervals)
    {
      var validation := ValidateFile(selected);
      if validation.Invalid? {
        error := Str(validation.error);
        file := None;
        return;
      }
      file := selected;
      error := Str("");
      message := "";
    }

    /** The description text area. */
    method SetDescription(text: string)
      requires Valid()
      modifies this`desc
      ensures Valid() && desc == text
    {
      desc := text;
    }

    /** The "Remove" button next to the selected file. */
    method RemoveFile()
      requires Valid()
      modifies this`file
      ensures Valid() && file == None
    {
      file := None;
    }

    /**
     * `handleUpload` up to the await. The guards run in order (file, trimmed
     * description, session email) and none of them sends anything; when all
     * pass, the state is reset, an interval is started and the request goes out.
     * The button is disabled while an upload is loading.
     */
    method StartUpload(email: Option<string>) returns (outcome: StartOutcome)
      requires Valid() && !loading
      modifies this
      ensures Valid()
      ensures file == old(file) && desc == old(desc)
      ensures old(file).None? ==>
        outcome == Blocked && error == Str("Please select a resume file.") && unchanged(this`message, this`loading, this`uploadProgress, this`liveIntervals)
      ensures old(file).Some? && Trim(desc) == "" ==>
        outcome == Blocked && error == Str("Please enter target role or job description.") && unchanged(this`message, this`loading, this`uploadProgress, this`liveIntervals)
      ensures old(file).Some? && Trim(desc) != "" && (email.None? || email.value == "") ==>
        outcome == NavigateTo("/") && unchanged(this`error, this`message, this`loading, this`uploadProgress, this`liveIntervals)
      ensures outcome.Submitted? <==> old(file).Some? && Trim(desc) != "" && email.Some? && email.value != ""
      ensures outcome.Submitted? ==>
        && outcome == Submitted(email.value, old(file).value, desc)
        && loading && uploadProgress == 0 && error == Str("") && message == ""
        && liveIntervals == old(liveIntervals) + 1
    {
      if file.None? {
        error := Str("Please select a resume file.");
        return Blocked;
      }
      if Trim(desc) == "" {
        error := Str("Please enter target role or job description.");
        return Blocked;
      }
      if email.None? || email.value == "" {
        return NavigateTo("/");
      }
      loading := true;
      uploadProgress := 0;
      error := Str("");
      message := "";
      liveIntervals := liveIntervals + 1;
      outcome := Submitted(email.value, file.value, desc);
    }

    /** One firing of a live progress interval. */
    method Tick()
      requires Valid() && liveIntervals > 0
      modifies this`uploadProgress
      ensures Valid()
      ensures uploadProgress == Advance(old(uploadProgress))
      ensures uploadProgress >= old(uploadProgress)
      ensures old(uploadProgress) <= 90 ==> uploadProgress <= 90
    {
      uploadProgress := Advance(uploadProgress);
    }

    /**
     * `handleUpload` after the await, as written: a resolved response clears
     * the interval and forces progress to 100 before looking at `status`; a
     * rejected request goes straight to the catch, which does not clear it.
     * Reading `status` off a `null` response throws into the same catch.
     * The selected file is kept in every case.
     */
    method Respond(response: ApiOutcome) returns (redirect: Option<string>)
      requires Valid() && loading
      modifies this
      ensures Valid()
      ensures !loading && file == old(file) && desc == old(desc)
      ensures response.Rejected? ==>
        && error == Str("Network error. Please try again.") && uploadProgress == 0
        && liveIntervals == old(liveIntervals) && message == old(message) && redirect == None
      ensures response.Resolved? ==> liveIntervals == old(liveIntervals) - 1
      ensures response.Resolved? && Nullish(response.value) ==>
        && error == Str("Network error. Please try again.") && uploadProgress == 0
        && message == old(message) && redirect == None
      ensures response.Resolved? && !Nullish(response.value) && Truthy(Get(response.value, "status")) ==>
        && message == "Resume uploaded successfully! Redirecting..." && uploadProgress == 100
        && error == old(error) && redirect == Some("/dashboard")
      ensures response.Resolved? && !Nullish(response.value) && !Truthy(Get(response.value, "status")) ==>
        && error == Or(Get(response.value, "message"), Str("Upload failed.")) && uploadProgress == 0
        && message == old(message) && redirect == None
    {
      redirect := None;
      match response {
        case Rejected =>
          error := Str("Network error. Please try again.");
          uploadProgress := 0;
        case Resolved(result) =>
          liveIntervals := liveIntervals - 1;
          uploadProgress := 100;
          var status := Member(result, "status");
          if status.None? {
            error := Str("Network error. Please try again.");
            uploadProgress := 0;
          } else if Truthy(status.value) {
            message := "Resume uploaded successfully! Redirecting...";
            redirect := Some("/dashboard");
          } else {
            error := Or(Get(result, "message"), Str("Upload failed."));
            uploadProgress := 0;
          }
      }
      loading := false;
    }

    /**
     * `handleUpload` after the await with the interval cleared on every exit
     * path, as the success path already does; otherwise the same as Respond.
     */
    method RespondCorrected(response: ApiOutcome) returns (redirect: Option<string>)
      requires Valid() && loading
      modifies this
      ensures Valid()
      ensures !loading && file == old(file) && desc == old(desc)
      ensures liveIntervals == old(liveIntervals) - 1
      ensures response.Rejected? ==>
        && error == Str("Network error. Please try again.") && uploadProgress == 0
        && message == old(message) && redirect == None
      ensures response.Resolved? && Nullish(response.value) ==>
        && error == Str("Network error. Please try again.") && uploadProgress == 0
        && message == old(message) && redirect == None
      ensures response.Resolved? && !Nullish(response.value) && Truthy(Get(response.value, "status")) ==>
        && message == "Resume uploaded successfully! Redirecting..." && uploadProgress == 100
        && error == old(error) && redirect == Some("/dashboard")
      ensures response.Resolved? && !Nullish(response.value) && !Truthy(Get(response.value, "status")) ==>
        && error == Or(Get(response.value, "message"), Str("Upload failed.")) && uploadProgress == 0
        && message == old(message) && redirect == None
    {
      liveIntervals := liveIntervals - 1;
      redirect := None;
      match response {
        case Rejected =>
          error := Str("Network error. Please try again.");
          uploadProgress := 0;
        case Resolved(result) =>
          uploadProgress := 100;
          var status := Member(result, "status");
          if status.None? {
            error := Str("Network error. Please try again.");
            uploadProgress := 0;
          } else if Truthy(status.value) {
            message := "Resume uploaded successfully! Redirecting...";
            redirect := Some("/dashboard");
          } else {
            error := Or(Get(result, "message"), Str("Upload failed."));
            uploadProgress := 0;
          }
      }
      loading := false;
    }
  }

  /**
   * As written: after a network error the interval of the failed upload is
   * still live, and its next firing moves the reset progress from 0 to 10.
   */
  method IntervalLeaksAfterNetworkError(f: File, description: string, email: string) returns (live: nat, progress: int)
    requires ValidateFile(Some(f)) == Valid && Trim(description) != "" && email != ""
    ensures live == 1 && progress == 10
  {
    var screen := new UploadScreen();
    screen.SelectFile(Some(f));
    screen.SetDescription(description);
    assert screen.file == Some(f) && !screen.loading && screen.liveIntervals == 0;
    var started := screen.StartUpload(Some(email));
    assert started.Submitted? && screen.loading && screen.liveIntervals == 1;
    var redirect := screen.Respond(Rejected);
    assert screen.liveIntervals == 1 && screen.uploadProgress == 0;
    screen.Tick();
    live, progress := screen.liveIntervals, screen.uploadProgress;
  }

  /** Corrected: after a network error no interval is live, so nothing can move the progress off 0. */
  method NoIntervalAfterNetworkErrorCorrected(f: File, description: string, email: string) returns (live: nat, progress: int)
    requires ValidateFile(Some(f)) == Valid && Trim(description) != "" && email != ""
    ensures live == 0 && progress == 0
  {
    var screen := new UploadScreen();
    screen.SelectFile(Some(f));
    screen.SetDescription(description);
    assert screen.file == Some(f) && !screen.loading && screen.liveIntervals == 0;
    var started := screen.StartUpload(Some(email));
    assert started.Submitted? && screen.loading && screen.liveIntervals == 1;
    var redirect := screen.RespondCorrected(Rejected);
    assert screen.liveIntervals == 0 && screen.uploadProgress == 0;
    live, progress := screen.liveIntervals, screen.uploadProgress;
  }
}
