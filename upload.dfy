/** The sample-upload form: a metadata record, an optional sequencing file,
    and a simulated upload whose progress a repeating timer advances.

    The pure part of the module gives the form's state as a value and one
    step function per event (file pick, field edit, submit, timer tick); the
    class `UploadForm` holds the same state in fields and its methods are
    proved to perform exactly those steps. Alerts are returned as values. */
module SampleUpload {

  datatype Option<T> = None | Some(value: T)

  /** A blocking alert dialog: its title and its message. */
  datatype Alert = Alert(title: string, message: string)

  const NoFileAlert := Alert("Error", "Please select a file first")
  const MissingFieldsAlert := Alert("Error", "Please fill in all required fields")
  const SuccessAlert := Alert("Success", "Sample uploaded successfully!")

  /** The metadata record. Every field holds the text entered for it;
      `sampleType` is set to "sediment" or "water" by the type selector. */
  datatype Metadata = Metadata(
    name: string,
    sampleType: string,
    latitude: string,
    longitude: string,
    depth: string,
    region: string,
    date: string,
    description: string)

  /** The keys of the metadata record. */
  datatype Field = Name | SampleType | Latitude | Longitude | Depth | Region | Date | Description

  function Get(m: Metadata, f: Field): string
  {
    match f
    case Name => m.name
    case SampleType => m.sampleType
    case Latitude => m.latitude
    case Longitude => m.longitude
    case Depth => m.depth
    case Region => m.region
    case Date => m.date
    case Description => m.description
  }

  /** The record `{ ...m, [f]: v }`: field `f` now reads `v`, every other
      field reads as before. */
  function With(m: Metadata, f: Field, v: string): (r: Metadata)
    ensures Get(r, f) == v
    ensures forall g :: g != f ==> Get(r, g) == Get(m, g)
  {
    match f
    case Name => m.(name := v)
    case SampleType => m.(sampleType := v)
    case Latitude => m.(latitude := v)
    case Longitude => m.(longitude := v)
    case Depth => m.(depth := v)
    case Region => m.(region := v)
    case Date => m.(date := v)
    case Description => m.(description := v)
  }

  /** The fields marked with an asterisk that submit checks. */
  const RequiredFields: set<Field> := {Name, Latitude, Longitude, Depth}

  /** The submit guard on the metadata: some required field is the empty
      string (the only falsy string). */
  predicate MissingRequired(m: Metadata)
  {
    m.name == "" || m.latitude == "" || m.longitude == "" || m.depth == ""
  }

  /** The selected file as the submit guard sees it: a non-empty name. */
  predicate HasFile(f: Option<string>)
  {
    f.Some? && f.value != ""
  }

  /** The three buttons of the file-selection dialog. */
  datatype FileChoice = Fasta | Fastq | Cancel

  const FastaFile := "sample.fasta"
  const FastqFile := "sample.fastq"

  /** The whole state of the form. */
  datatype FormState = FormState(
    metadata: Metadata,
    selectedFile: Option<string>,
    isUploading: bool,
    uploadProgress: int)

  /** What every reachable state satisfies: progress is a multiple of 10
      between 0 and 100, and the selected file, if any, is one of the two
      names the dialog offers. */
  predicate Inv(s: FormState)
  {
    0 <= s.uploadProgress <= 100 && s.uploadProgress % 10 == 0 &&
    (s.selectedFile.Some? ==> s.selectedFile.value in {FastaFile, FastqFile})
  }

  /** The new state after an event, with the alert the event raised, if any. */
  datatype Step = Step(state: FormState, alert: Option<Alert>)

  /** The state the screen starts in; `today` is the default date, taken
      from the clock. */
  function Initial(today: string): (s: FormState)
    ensures Inv(s)
    ensures !HasFile(s.selectedFile) && !s.isUploading && s.uploadProgress == 0
    ensures forall f :: f in RequiredFields ==> Get(s.metadata, f) == ""
    ensures Get(s.metadata, SampleType) == "sediment" && Get(s.metadata, Date) == today
    ensures Get(s.metadata, Region) == "" && Get(s.metadata, Description) == ""
  {
    FormState(Metadata("", "sediment", "", "", "", "", today, ""), None, false, 0)
  }

  /** Answering the file-selection dialog. */
  function AfterPick(s: FormState, c: FileChoice): (r: FormState)
    ensures c == Cancel ==> r == s
    ensures c == Fasta ==> r == s.(selectedFile := Some(FastaFile))
    ensures c == Fastq ==> r == s.(selectedFile := Some(FastqFile))
    ensures c != Cancel ==> HasFile(r.selectedFile)
    ensures Inv(s) ==> Inv(r)
  {
    match c
    case Fasta => s.(selectedFile := Some(FastaFile))
    case Fastq => s.(selectedFile := Some(FastqFile))
    case Cancel => s
  }

  /** Editing one metadata field. */
  function AfterUpdate(s: FormState, f: Field, v: string): (r: FormState)
    ensures Get(r.metadata, f) == v
    ensures forall g :: g != f ==> Get(r.metadata, g) == Get(s.metadata, g)
    ensures r.selectedFile == s.selectedFile && r.isUploading == s.isUploading
    ensures r.uploadProgress == s.uploadProgress
    ensures Inv(s) ==> Inv(r)
  {
    s.(metadata := With(s.metadata, f, v))
  }

  /** Pressing "Start Analysis". The button is disabled while an upload
      runs, so this is never invoked then. The file check comes first, then
      the required fields; either failure leaves the state as it was. */
  function AfterSubmit(s: FormState): (r: Step)
    requires !s.isUploading
    ensures !HasFile(s.selectedFile) ==> r == Step(s, Some(NoFileAlert))
    ensures HasFile(s.selectedFile) && MissingRequired(s.metadata) ==> r == Step(s, Some(MissingFieldsAlert))
    ensures r.alert.None? <==> HasFile(s.selectedFile) && !MissingRequired(s.metadata)
    ensures r.alert.None? ==> r.state == s.(isUploading := true, uploadProgress := 0)
    ensures Inv(s) ==> Inv(r.state)
  {
    if !HasFile(s.selectedFile) then Step(s, Some(NoFileAlert))
    else if MissingRequired(s.metadata) then Step(s, Some(MissingFieldsAlert))
    else Step(s.(isUploading := true, uploadProgress := 0), None)
  }

  /** One firing of the upload interval, which exists exactly while an
      upload runs. Below 100 the progress grows by 10; at 100 or more it is
      set to 100, the interval is cleared, uploading ends and the success
      alert is shown. */
  function AfterTick(s: FormState): (r: Step)
    requires s.isUploading
    ensures s.uploadProgress < 100 ==> r == Step(s.(uploadProgress := s.uploadProgress + 10), None)
    ensures s.uploadProgress >= 100 ==> r == Step(s.(isUploading := false, uploadProgress := 100), Some(SuccessAlert))
    ensures Inv(s) ==> Inv(r.state) && r.state.uploadProgress >= s.uploadProgress
  {
    if s.uploadProgress >= 100 then Step(s.(isUploading := false, uploadProgress := 100), Some(SuccessAlert))
    else Step(s.(uploadProgress := s.uploadProgress + 10), None)
  }

  /** The state after `k` timer periods: each period fires the interval if
      it is still running and does nothing once it has been cleared. */
  function RunTicks(s: FormState, k: nat): FormState
  {
    if k == 0 then s
    else
      var p := RunTicks(s, k - 1);
      if p.isUploading then AfterTick(p).state else p
  }

  /** The status line under the progress bar. */
  function StatusLabel(progress: int): string
  {
    if progress < 50 then "Preprocessing..."
    else if progress < 100 then "Analyzing with AI..."
    else "Complete!"
  }

  /** The status line as rendered: shown, with its label, only while an
      upload runs. */
  function StatusLine(s: FormState): Option<string>
  {
    if s.isUploading then Some(StatusLabel(s.uploadProgress)) else None
  }

  /** The submit button is disabled with no file or while uploading. */
  predicate UploadDisabled(s: FormState)
  {
    !HasFile(s.selectedFile) || s.isUploading
  }

  function UploadButtonLabel(s: FormState): string
  {
    if s.isUploading then "Processing..." else "Start Analysis"
  }

  /** The submit guard on the metadata says, field by field, that one of
      the four required fields is empty; the optional ones play no part. */
  lemma MissingRequiredIff(m: Metadata)
    ensures MissingRequired(m) <==> exists f :: f in RequiredFields && Get(m, f) == ""
  {
  }

  /** Editing a field that is not required never changes whether submit
      finds fields missing. */
  lemma OptionalFieldIrrelevant(m: Metadata, f: Field, v: string)
    requires f !in RequiredFields
    ensures MissingRequired(With(m, f, v)) == MissingRequired(m)
  {
  }

  /** No number is parsed and no range is checked: with a file selected,
      any non-empty text in the required fields, blanks and letters
      included, starts the upload. */
  lemma NoNumericCheck(s: FormState)
    requires !s.isUploading && HasFile(s.selectedFile)
    requires forall f :: f in RequiredFields ==> |Get(s.metadata, f)| > 0
    ensures AfterSubmit(s) == Step(s.(isUploading := true, uploadProgress := 0), None)
  {
    assert Get(s.metadata, Name) != "" && Get(s.metadata, Latitude) != "";
    assert Get(s.metadata, Longitude) != "" && Get(s.metadata, Depth) != "";
  }

  /** With no file selected, the file error is reported whatever the
      fields hold, even if all required fields are empty too. */
  lemma FileCheckedFirst(s: FormState)
    requires !s.isUploading && !HasFile(s.selectedFile) && MissingRequired(s.metadata)
    ensures AfterSubmit(s) == Step(s, Some(NoFileAlert))
  {
  }

  /** While the button is enabled, the file error cannot occur: submit
      either starts an upload, after which the button is disabled and reads
      "Processing...", or reports the missing fields and leaves it enabled. */
  lemma EnabledSubmitChecksFieldsOnly(s: FormState)
    requires !UploadDisabled(s)
    ensures UploadButtonLabel(s) == "Start Analysis"
    ensures AfterSubmit(s).alert != Some(NoFileAlert)
    ensures AfterSubmit(s).alert.None? || AfterSubmit(s).alert == Some(MissingFieldsAlert)
    ensures AfterSubmit(s).alert.None? <==> UploadDisabled(AfterSubmit(s).state)
    ensures AfterSubmit(s).alert.None? ==> UploadButtonLabel(AfterSubmit(s).state) == "Processing..."
  {
  }

  /** Typing the same text into a field twice is the same as typing it once. */
  lemma UpdateIdempotent(s: FormState, f: Field, v: string)
    ensures AfterUpdate(AfterUpdate(s, f, v), f, v) == AfterUpdate(s, f, v)
  {
  }

  /** For the first ten periods after submit the upload runs and the
      progress is ten times the number of periods elapsed. */
  lemma {:induction false} TicksWhileRunning(s: FormState, k: nat)
    requires s.isUploading && s.uploadProgress == 0
    requires k <= 10
    ensures RunTicks(s, k) == s.(uploadProgress := 10 * k)
  {
    if k > 0 {
      TicksWhileRunning(s, k - 1);
    }
  }

  /** The eleventh period finds the progress at 100, clears the interval
      and ends the upload; nothing changes afterwards. */
  lemma {:induction false} TicksFinish(s: FormState, k: nat)
    requires s.isUploading && s.uploadProgress == 0
    requires k >= 11
    ensures RunTicks(s, k) == s.(isUploading := false, uploadProgress := 100)
  {
    if k == 11 {
      TicksWhileRunning(s, 10);
    } else {
      TicksFinish(s, k - 1);
    }
  }

  /** The whole simulated upload from an accepted submit: the form is
      otherwise unchanged, progress is 10 * k capped at 100, uploading ends
      with the eleventh period, and the status line reads "Preprocessing..."
      for the first five periods, "Analyzing with AI..." for the next five
      and "Complete!" after the tenth; from the eleventh on it is not shown. */
  lemma {:induction false} UploadRun(s: FormState, k: nat)
    requires !s.isUploading && HasFile(s.selectedFile) && !MissingRequired(s.metadata)
    ensures var t := RunTicks(AfterSubmit(s).state, k);
      t.metadata == s.metadata && t.selectedFile == s.selectedFile &&
      t.uploadProgress == (if k <= 10 then 10 * k else 100) &&
      t.isUploading == (k <= 10) &&
      StatusLine(t) ==
        (if k < 5 then Some("Preprocessing...")
         else if k < 10 then Some("Analyzing with AI...")
         else if k == 10 then Some("Complete!")
         else None)
  {
    var start := AfterSubmit(s).state;
    if k <= 10 {
      TicksWhileRunning(start, k);
    } else {
      TicksFinish(start, k);
    }
  }

  /** Every period keeps the form's invariant, whatever state it starts in. */
  lemma {:induction false} RunTicksInv(s: FormState, k: nat)
    requires Inv(s)
    ensures Inv(RunTicks(s, k))
    ensures RunTicks(s, k).metadata == s.metadata && RunTicks(s, k).selectedFile == s.selectedFile
  {
    if k > 0 {
      RunTicksInv(s, k - 1);
    }
  }

  /** The form as the screen component holds it: `useState` slots become
      fields, and each handler becomes a method that changes them. */
  class UploadForm {
    var metadata: Metadata
    var selectedFile: Option<string>
    var isUploading: bool
    var uploadProgress: int

    ghost function State(): FormState
      reads this
    {
      FormState(metadata, selectedFile, isUploading, uploadProgress)
    }

    ghost predicate Valid()
      reads this
    {
      Inv(State())
    }

    constructor (today: string)
      ensures Valid()
      ensures State() == Initial(today)
    {
      metadata := Metadata("", "sediment", "", "", "", "", today, "");
      selectedFile := None;
      isUploading := false;
      uploadProgress := 0;
    }

    /** handleFilePick together with the button chosen in its dialog. */
    method PickFile(c: FileChoice)
      requires Valid()
      modifies this
      ensures Valid()
      ensures State() == AfterPick(old(State()), c)
    {
      if c == Fasta {
        selectedFile := Some(FastaFile);
      } else if c == Fastq {
        selectedFile := Some(FastqFile);
      }
    }

    /** updateMetadata. */
    method UpdateField(f: Field, v: string)
      requires Valid()
      modifies this
      ensures Valid()
      ensures State() == AfterUpdate(old(State()), f, v)
      ensures Get(metadata, f) == v
      ensures forall g :: g != f ==> Get(metadata, g) == Get(old(metadata), g)
    {
      metadata := With(metadata, f, v);
    }

    /** handleUpload: returns the alert it raised, if any. */
    method Submit() returns (alert: Option<Alert>)
      requires Valid() && !isUploading
      modifies this
      ensures Valid()
      ensures Step(State(), alert) == AfterSubmit(old(State()))
    {
      if !HasFile(selectedFile) {
        return Some(NoFileAlert);
      }
      if MissingRequired(metadata) {
        return Some(MissingFieldsAlert);
      }
      isUploading := true;
      uploadProgress := 0;
      alert := None;
    }

    /** One firing of the interval started by handleUpload. */
    method Tick() returns (alert: Option<Alert>)
      requires Valid() && isUploading
      modifies this
      ensures Valid()
      ensures Step(State(), alert) == AfterTick(old(State()))
    {
      var prev := uploadProgress;
      if prev >= 100 {
        isUploading := false;
        uploadProgress := 100;
        alert := Some(SuccessAlert);
      } else {
        uploadProgress := prev + 10;
        alert := None;
      }
    }
  }
}
