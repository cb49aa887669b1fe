/**
 * The kiosk's session state (class PrintKiosk): which screen is shown, the
 * uploaded file, the preview page, the print settings and the easter-egg
 * counters, with the operations that change them. Widgets, threads and the
 * `after` scheduling are left out: an operation scheduled with
 * `root.after(0, ...)` is applied at once, and the results of CUPS, of the
 * PDF renderer and of the file system are parameters.
 */
module KioskSession {
  import opened Wrappers
  import PO = PrintOptions
  import JP = JobPolling
  import Nav = PreviewNavigation
  import EE = EasterEggs
  import UI = UploadIntake

  /** The screen identity (`current_screen`). */
  datatype Screen = Welcome | Confirmation | Preview | Printing | Success

  /** The CUPS queue every job is sent to, and the job title. */
  const PrinterName: string := "HP_LaserJet_M208dw"
  const JobTitle: string := "Print Job"

  /** Outcome of rendering the preview images: their number, or an error. */
  datatype RenderResult = Rendered(pages: nat) | RenderFailed

  /** Outcome of `printFile`: the job identifier CUPS assigned, or an error. */
  datatype SubmitResult = Accepted(jobId: int) | Rejected

  /** The arguments handed to `printFile`. */
  datatype Submission = Submission(printer: string, file: Option<string>, title: string, options: map<string, string>)

  datatype PrintError =
    | NoConnection       // "CUPS connection not available"
    | SubmitFailed       // `printFile` raised
    | JobCancelled       // "Print job cancelled" (job state 8)
    | StatusQueryFailed  // `getJobs` raised

  /** How far a print attempt got over the snapshots observed. */
  datatype PrintOutcome = Printed(jobId: int) | PrintFailed(reason: PrintError) | StillPrinting(jobId: int)

  /** What a poll result means for the print attempt. */
  function OutcomeOfPoll(jobId: int, r: JP.PollResult): (o: PrintOutcome)
    ensures o == Printed(jobId) <==> r.Ended? && r.end == JP.Completed
    ensures o == PrintFailed(JobCancelled) <==> r.Ended? && r.end == JP.Cancelled
    ensures o == PrintFailed(StatusQueryFailed) <==> r.Ended? && r.end == JP.QueryError
    ensures o == StillPrinting(jobId) <==> r.StillPolling?
  {
    match r
    case StillPolling => StillPrinting(jobId)
    case Ended(end, _) =>
      match end
      case Completed => Printed(jobId)
      case Cancelled => PrintFailed(JobCancelled)
      case QueryError => PrintFailed(StatusQueryFailed)
  }

  /**
   * The kiosk reports a printed job exactly when the first snapshot that
   * stops the polling shows the job gone from the list or completed.
   */
  lemma PrintedIffFirstDecisiveCompleted(jobId: int, snaps: seq<JP.Snapshot>)
    ensures OutcomeOfPoll(jobId, JP.PollOutcome(jobId, snaps)) == Printed(jobId)
        <==> exists i: nat :: JP.FirstDecisiveAt(jobId, snaps, i, JP.Completed)
  {
    var r := JP.PollOutcome(jobId, snaps);
    JP.PollOutcomeIsFirstDecisive(jobId, snaps);
    if r.Ended? && r.end == JP.Completed {
      assert JP.FirstDecisiveAt(jobId, snaps, r.at, JP.Completed);
    }
  }

  class Kiosk {
    var screen: Screen
    var currentFile: Option<string>
    /** The number of preview images (`len(preview_images)`). */
    var pageCount: nat
    var currentPage: nat
    var printSettings: PO.PrintSettings
    var konamiProgress: seq<string>
    var secretClicks: nat
    var countdown: nat
    /** Whether the CUPS connection was opened at start-up. */
    const cupsAvailable: bool

    /** The keys typed since the Konami window was last cleared. */
    ghost var keysSinceReset: seq<string>
    /** All clicks on the welcome title so far. */
    ghost var titleClicks: nat

    ghost predicate Valid()
      reads this
    {
      && Nav.InBounds(currentPage, pageCount)
      && konamiProgress == EE.LastN(keysSinceReset, |EE.KonamiCode|)
      && secretClicks == titleClicks % EE.SecretClickThreshold
      && countdown <= EE.CountdownStart
    }

    /** Start-up: the welcome screen, no file, default settings, counters at zero. */
    constructor (cupsAvailable: bool)
      ensures Valid()
      ensures screen == Welcome && currentFile == None
      ensures pageCount == 0 && currentPage == 0
      ensures printSettings == PO.DefaultSettings
      ensures konamiProgress == [] && secretClicks == 0 && countdown == 0
      ensures this.cupsAvailable == cupsAvailable
    {
      screen := Welcome;
      currentFile := None;
      pageCount, currentPage := 0, 0;
      printSettings := PO.DefaultSettings;
      konamiProgress, secretClicks, countdown := [], 0, 0;
      this.cupsAvailable := cupsAvailable;
      keysSinceReset, titleClicks := [], 0;
    }

    method ShowWelcome()
      modifies this`screen
      ensures screen == Welcome
    {
      screen := Welcome;
    }

    method ShowFileConfirmation()
      modifies this`screen
      ensures screen == Confirmation
    {
      screen := Confirmation;
    }

    method ShowPrinting()
      modifies this`screen
      ensures screen == Printing
    {
      screen := Printing;
    }

    /** Whether `current_file` is set (Python truthiness: present and non-empty). */
    predicate HasFile()
      reads this
      ensures !HasFile() <==> currentFile == None || currentFile == Some("")
    {
      currentFile.Some? && currentFile.value != ""
    }

    /**
     * Open the preview: without a file, with a file that no longer exists,
     * or when rendering fails, return to the welcome screen and keep the old
     * preview; otherwise show the rendered pages from the first one.
     */
    method ShowPreview(fileExists: bool, render: RenderResult)
      requires Valid()
      modifies this`screen, this`pageCount, this`currentPage
      ensures Valid()
      ensures old(HasFile()) && fileExists && render.Rendered? ==>
        screen == Preview && pageCount == render.pages && currentPage == 0
      ensures !(old(HasFile()) && fileExists && render.Rendered?) ==>
        screen == Welcome && pageCount == old(pageCount) && currentPage == old(currentPage)
    {
      screen := Preview;
      if !HasFile() || !fileExists {
        ShowWelcome();
        return;
      }
      match render
      case RenderFailed =>
        ShowWelcome();
      case Rendered(pages) =>
        pageCount := pages;
        currentPage := 0;
    }

    /** The "Previous" button: one page back unless on the first page. */
    method PrevPage()
      requires Valid()
      modifies this`currentPage
      ensures Valid()
      ensures currentPage == Nav.PrevPage(old(currentPage))
      ensures Nav.PrevEnabled(old(currentPage), pageCount) && pageCount > 0 ==> currentPage == old(currentPage) - 1
      ensures !Nav.PrevEnabled(old(currentPage), pageCount) ==> currentPage == old(currentPage)
    {
      if currentPage > 0 {
        currentPage := currentPage - 1;
      }
      Nav.NavigationKeepsBounds(old(currentPage), pageCount);
    }

    /** The "Next" button: one page on unless on the last page. */
    method NextPage()
      requires Valid()
      modifies this`currentPage
      ensures Valid()
      ensures currentPage == Nav.NextPage(old(currentPage), pageCount)
      ensures Nav.NextEnabled(old(currentPage), pageCount) && pageCount > 0 ==> currentPage == old(currentPage) + 1
      ensures !Nav.NextEnabled(old(currentPage), pageCount) ==> currentPage == old(currentPage)
    {
      if currentPage < pageCount - 1 {
        currentPage := currentPage + 1;
      }
      Nav.NavigationKeepsBounds(old(currentPage), pageCount);
    }

    /** The "Print" button: record the collected settings and show the printing screen. */
    method StartPrinting(form: PO.FormValues)
      requires Valid()
      modifies this`printSettings, this`screen
      ensures Valid()
      ensures printSettings == PO.CollectSettings(form)
      ensures screen == Printing
    {
      var pageRange: string;
      if form.rangeChoice == "custom" {
        pageRange := form.rangeText;
        if pageRange == PO.RangePlaceholder {
          pageRange := PO.AllPages;
        }
      } else {
        pageRange := PO.AllPages;
      }
      printSettings := PO.PrintSettings(pageRange, form.orientation, form.duplex);
      ShowPrinting();
    }

    /**
     * Send the current file to CUPS with the options of the current settings
     * and follow the job over the snapshots observed. Success shows the
     * success screen; every error returns to the welcome screen; while no
     * snapshot is decisive the screen does not change.
     */
    method DoPrint(submit: SubmitResult, snapshots: seq<JP.Snapshot>) returns (sent: Option<Submission>, outcome: PrintOutcome)
      requires Valid()
      modifies this`screen, this`countdown
      ensures Valid()
      ensures !cupsAvailable ==> sent == None && outcome == PrintFailed(NoConnection)
      ensures cupsAvailable ==> sent == Some(Submission(PrinterName, currentFile, JobTitle, PO.CupsOptions(printSettings)))
      ensures cupsAvailable && submit.Rejected? ==> outcome == PrintFailed(SubmitFailed)
      ensures cupsAvailable && submit.Accepted? ==>
        outcome == OutcomeOfPoll(submit.jobId, JP.PollOutcome(submit.jobId, snapshots))
      ensures outcome.Printed? ==> screen == Success && countdown == EE.CountdownStart - 1
      ensures outcome.PrintFailed? ==> screen == Welcome && countdown == old(countdown)
      ensures outcome.StillPrinting? ==> screen == old(screen) && countdown == old(countdown)
    {
      if !cupsAvailable {
        sent, outcome := None, PrintFailed(NoConnection);
        ShowWelcome();
        return;
      }
      var options := PO.BuildOptions(printSettings);
      sent := Some(Submission(PrinterName, currentFile, JobTitle, options));
      match submit
      case Rejected =>
        outcome := PrintFailed(SubmitFailed);
        ShowWelcome();
      case Accepted(jobId) =>
        var polled := JP.PollJob(jobId, snapshots);
        outcome := OutcomeOfPoll(jobId, polled);
        match outcome
        case Printed(_) => ShowSuccess();
        case PrintFailed(_) => ShowWelcome();
        case StillPrinting(_) =>
    }

    /** The success screen: start the countdown at 5 and take its first tick at once. */
    method ShowSuccess()
      requires Valid()
      modifies this`screen, this`countdown
      ensures Valid()
      ensures screen == Success && countdown == EE.CountdownStart - 1
    {
      screen := Success;
      countdown := EE.CountdownStart;
      DoCountdown();
    }

    /** One countdown tick: only on the success screen; at zero, return home. */
    method DoCountdown()
      requires Valid()
      modifies this`screen, this`countdown
      ensures Valid()
      ensures old(screen) != Success ==> screen == old(screen) && countdown == old(countdown)
      ensures old(screen) == Success && EE.CountdownTick(old(countdown)).Wait? ==>
        screen == Success && countdown == EE.CountdownTick(old(countdown)).remaining
      ensures old(screen) == Success && EE.CountdownTick(old(countdown)).ReturnHome? ==>
        screen == Welcome && countdown == old(countdown)
    {
      if screen != Success {
        return;
      }
      if countdown > 0 {
        countdown := countdown - 1;
      } else {
        ShowWelcome();
      }
    }

    /**
     * A key event: record the key in the window of the last ten keys; when
     * the window spells the Konami code, open party mode and clear it.
     */
    method CheckKonami(keysym: string, ch: string) returns (party: bool)
      requires Valid()
      modifies this`konamiProgress, this`keysSinceReset
      ensures Valid()
      ensures var step := EE.KonamiAfter(old(konamiProgress), EE.KeyOf(keysym, ch));
        konamiProgress == step.window && party == step.party
      ensures party <==> EE.LastN(old(keysSinceReset) + [EE.KeyOf(keysym, ch)], |EE.KonamiCode|) == EE.KonamiCode
      ensures party ==> keysSinceReset == []
      ensures !party ==> keysSinceReset == old(keysSinceReset) + [EE.KeyOf(keysym, ch)]
      ensures |konamiProgress| <= |EE.KonamiCode|
    {
      var key := keysym;
      if key == "b" || key == "a" {
        key := ch;
      }
      EE.KonamiFiresOnCode(keysSinceReset, key);
      konamiProgress := konamiProgress + [key];
      if |konamiProgress| > |EE.KonamiCode| {
        konamiProgress := konamiProgress[1..];
      }
      party := konamiProgress == EE.KonamiCode;
      if party {
        konamiProgress := [];
        keysSinceReset := [];
      } else {
        keysSinceReset := keysSinceReset + [key];
      }
    }

    /** A click on the welcome title: every tenth click opens party mode and restarts the count. */
    method SecretClick() returns (party: bool)
      requires Valid()
      modifies this`secretClicks, this`titleClicks
      ensures Valid()
      ensures titleClicks == old(titleClicks) + 1
      ensures var step := EE.SecretClickAfter(old(secretClicks));
        secretClicks == step.clicks && party == step.party
      ensures party <==> titleClicks % EE.SecretClickThreshold == 0
      ensures secretClicks < EE.SecretClickThreshold
    {
      EE.SecretClickCountsModulo(titleClicks);
      secretClicks := secretClicks + 1;
      titleClicks := titleClicks + 1;
      party := false;
      if secretClicks >= EE.SecretClickThreshold {
        party := true;
        secretClicks := 0;
      }
    }

    /**
     * An upload request: on success the stored path becomes the current
     * file and the confirmation screen is shown; a refused request changes
     * nothing.
     */
    method ReceiveFile(req: UI.UploadRequest, tempDir: string, now: real, saveError: Option<string>)
      returns (response: UI.Intake)
      requires Valid()
      modifies this`currentFile, this`screen
      ensures Valid()
      ensures response == UI.Receive(req, tempDir, now, saveError)
      ensures response.Stored? ==> currentFile == Some(response.path) && screen == Confirmation
      ensures response.Refused? ==> currentFile == old(currentFile) && screen == old(screen)
    {
      response := UI.Receive(req, tempDir, now, saveError);
      if response.Stored? {
        currentFile := Some(response.path);
        ShowFileConfirmation();
      }
    }
  }
}
