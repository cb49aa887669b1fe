# Revive Print Kiosk: a Dafny model of its session logic

The Revive Print Kiosk is a Raspberry Pi touch-screen program. It shows a QR
code for an upload page. It receives the uploaded document on a local
`POST /receive_file` endpoint and previews it page by page. It collects print
options and sends the job to CUPS, then polls the job until it completes.
Almost all of the program is tkinter screen layout. This project models the
sequential decisions inside it:

- **Print options** (`print_options.dfy`, module `PrintOptions`). The option
  widgets become the `print_settings` record. The placeholder text of the
  custom page-range entry means "all". The record becomes the CUPS option
  mapping, whose keys are the IPP job-template attributes `page-ranges`,
  `orientation-requested` (3 portrait, 4 landscape) and `sides`, from
  section 5.2 of RFC 8011.
- **Job polling** (`job_polling.dfy`, module `JobPolling`). This is the
  `while True` loop that follows a submitted job over successive
  `getJobs()` snapshots. IPP `job-state` values come from section 5.3.7 of
  RFC 8011. A job that is gone or in state 9 ("completed") ends the loop
  with success. State 8 ("aborted") ends it with a "cancelled" error. A
  failing query ends it with an error. Any other state polls again.
- **Preview navigation** (`preview_navigation.dfy`, module
  `PreviewNavigation`). The page counter moves under the Previous/Next
  buttons, and the buttons' enabled states derive from it.
- **Counters** (`easter_eggs.dfy`, module `EasterEggs`). These are the
  Konami-code window of the last ten keys, the ten-click title counter and
  the five-second countdown of the success screen.
- **Upload intake** (`upload_intake.dfy`, module `UploadIntake`). The
  upload handler validates the request and builds the stored path
  `<temp dir>/print_<whole seconds>_<filename>`.
- **Session state** (`kiosk.dfy`, module `KioskSession`, class `Kiosk`).
  Its fields are the screen identity, `current_file`, the page count and
  current page, `print_settings`, `konami_progress`, `secret_clicks` and
  `countdown`. Its methods apply the decisions above to those fields.
  `Valid()` ties the counters to ghost histories:
  - `konami_progress` is the last ten keys typed since the window was
    last cleared.
  - `secret_clicks` is the number of title clicks modulo ten.
  - The page index lies within the preview.

External effects are parameters:

- the time (`now`, seconds as a real number) and the temporary directory;
- whether saving the upload raised, and with which message;
- whether the file still exists, and the number of pages the renderer
  produced (or that it failed);
- whether the CUPS connection was opened at start-up, what `printFile`
  returned, and the sequence of `getJobs()` snapshots.

Work that `root.after(0, …)` schedules onto the display loop is applied at
once.

Notes on what the code does:

- The page range is sent to CUPS verbatim. There is no range parser, no
  validation and no de-duplication.
- Polling has no bound and no timeout.
- The stored name is not collision-free. Two uploads of one filename in the
  same whole second get the same path (`UploadIntake.StoredPathIdentifiesUpload`
  proves the path is equal exactly then).
- The intake handler writes `current_file` directly rather than through an
  event queue.
- The "cancelled" code the kiosk checks is 8 (IPP "aborted"). A job in IPP
  state 7 ("canceled") keeps polling, and reads as completed once CUPS
  drops it from the list (`JobPolling.PurgedJobCountsAsCompleted`).

## Model

| member | source | states |
|---|---|---|
| `PrintOptions.CollectSettings` | raspberry_pi_kiosk.py:497-508 | page range is the entry text exactly when "custom" is chosen and the text is not the placeholder, otherwise "all"; orientation and duplex are copied unchanged |
| `PrintOptions.CupsOptions` | raspberry_pi_kiosk.py:590-608 | keys are exactly orientation-requested and sides, plus page-ranges iff the range is not "all" (then holding the range verbatim); orientation is "4" iff landscape, else "3"; sides is long/short edge for "long"/"short", one-sided for anything else |
| `PrintOptions.BuildOptions` | raspberry_pi_kiosk.py:589-608 | building the dictionary key by key yields exactly CupsOptions of the settings |
| `PrintOptions.OrientationCode` | raspberry_pi_kiosk.py:597-600 | the orientation code is always "3" or "4", and "4" exactly for "landscape" |
| `PrintOptions.SidesKeyword` | raspberry_pi_kiosk.py:603-608 | long edge exactly for "long", short edge exactly for "short", one-sided exactly for every other value |
| `PrintOptions.OptionsRoundTrip` | raspberry_pi_kiosk.py:590-608 | the options are well formed and decode back to the settings, with unknown orientation/duplex values read as portrait/none |
| `PrintOptions.OptionsAreExactlyTheWellFormed` | raspberry_pi_kiosk.py:590-608 | every well-formed option mapping is the translation of the settings decoded from it, so the translation's image is exactly the well-formed mappings |
| `PrintOptions.FormSettingsRoundTrip` | raspberry_pi_kiosk.py:358-429 | for radio values the form offers, settings collected from the form translate losslessly |
| `PrintOptions.DefaultFormOptions` | raspberry_pi_kiosk.py:316-393 | the untouched form collects the default settings, which send portrait one-sided with no page range; landscape long-edge on all pages sends no page range |
| `JobPolling.PollOutcomeIsFirstDecisive` | raspberry_pi_kiosk.py:622-632 | about `PollOutcome` (the reference loop) and `Decisive`/`EndOf` (the per-snapshot decision, where only a failed query, a missing job or state 8 or 9 is decisive): polling ends at index i with outcome e iff snapshot i is the first decisive one and ends the job as e; it goes on iff no snapshot is decisive |
| `JobPolling.PollJob` | raspberry_pi_kiosk.py:621-632 | the loop returns the first decisive snapshot's index and outcome (gone or 9: completed; 8: cancelled; failed query: error), or still polling when none is decisive |
| `JobPolling.CompletesAfterProcessing` | raspberry_pi_kiosk.py:622-632 | states 3, 5, 9 end as completed at the third poll |
| `JobPolling.PurgedJobCountsAsCompleted` | raspberry_pi_kiosk.py:624-626 | after any non-decisive snapshots (such as state 7), a listing that holds other jobs but not this one ends the job as completed there |
| `PreviewNavigation.PrevPage` | raspberry_pi_kiosk.py:482-486 | Previous moves back by at most one page, and stays put exactly on the first page |
| `PreviewNavigation.NextPage` | raspberry_pi_kiosk.py:488-492 | Next moves on by at most one page, and moves exactly when a further page exists |
| `PreviewNavigation.NavigationKeepsBounds` | raspberry_pi_kiosk.py:482-492 | both buttons keep the index in bounds: 0 <= page <= count-1 for a non-empty preview |
| `PreviewNavigation.EnabledIffPageMoves` | raspberry_pi_kiosk.py:479-492 | about `PrevEnabled`/`NextEnabled` (the button states of lines 479-480): with a non-empty preview, Previous is enabled iff page > 0 iff pressing it moves back by one; Next is enabled iff page < count-1 iff pressing it moves on by one; otherwise the press changes nothing |
| `PreviewNavigation.NextPressesStopAtLastPage` | raspberry_pi_kiosk.py:488-492 | k presses of Next from page p reach min(p+k, count-1) |
| `PreviewNavigation.PrevPressesStopAtFirstPage` | raspberry_pi_kiosk.py:482-486 | k presses of Previous from page p reach max(p-k, 0) |
| `PreviewNavigation.EveryPageReachable` | raspberry_pi_kiosk.py:238-240 | from the first page, where a new preview starts, t presses of Next reach page t for every page t |
| `EasterEggs.KeyOf` | raspberry_pi_kiosk.py:711-713 | for the keysyms "b" and "a" the event character is recorded; any other keysym is recorded as itself |
| `EasterEggs.Slide` | raspberry_pi_kiosk.py:715-717 | the window ends with the new key, keeps every key while it is shorter than the code, and never grows beyond the code's length |
| `EasterEggs.KonamiAfter` | raspberry_pi_kiosk.py:715-721 | party mode fires exactly when the slid window equals the code, and then the window is empty; the window never holds the complete code after a key and stays within ten keys |
| `EasterEggs.SlideKeepsLastTen` | raspberry_pi_kiosk.py:715-717 | appending a key and dropping the oldest beyond ten turns the last ten keys of a history into the last ten keys of the extended history |
| `EasterEggs.KonamiFiresOnCode` | raspberry_pi_kiosk.py:709-721 | a key fires party mode iff the last ten keys since the reset, this one included, equal the code; the window is then cleared, otherwise it is the last ten keys; it never exceeds ten |
| `EasterEggs.KonamiCodeFires` | raspberry_pi_kiosk.py:33 | typing the ten-key code on a cleared window fires and leaves the window empty |
| `EasterEggs.KonamiCodeTailFires` | raspberry_pi_kiosk.py:715-721 | after the first i keys of the code, typing the remaining keys fires and clears the window |
| `EasterEggs.SecretClickAfter` | raspberry_pi_kiosk.py:725-728 | after a click the counter is below ten, party mode fires exactly when the counter returns to zero, and below the threshold the click is counted |
| `EasterEggs.SecretClickCountsModulo` | raspberry_pi_kiosk.py:725-728 | the click counter holds the clicks modulo ten, and party mode opens exactly on every tenth click |
| `EasterEggs.ClickRunFiresEveryTenth` | raspberry_pi_kiosk.py:723-728 | k clicks from counter c < 10 end at (c+k) mod 10 with party mode opened (c+k) div 10 times |
| `EasterEggs.CountdownTick` | raspberry_pi_kiosk.py:691-696 | a tick returns home exactly at zero; otherwise the countdown drops by one |
| `EasterEggs.CountdownReturnsHomeAfter` | raspberry_pi_kiosk.py:686-696 | from countdown c, k ticks leave c-k for k <= c, and the (c+1)-th tick returns home |
| `EasterEggs.SuccessScreenLastsFiveSeconds` | raspberry_pi_kiosk.py:674-696 | the success screen starts at 5 and ticks at once to 4; s further one-second ticks show 4-s for s < 5, and at s = 5 it returns home |
| `UploadIntake.Truncate` | raspberry_pi_kiosk.py:774 | `int(time.time())` truncates toward zero: the result is within one second of the clock, below it for non-negative times |
| `UploadIntake.IntToString` | raspberry_pi_kiosk.py:774 | `str` of an integer is non-empty and holds no underscore, so it cannot be confused with the separators of the stored name |
| `UploadIntake.IntToStringInjective` | raspberry_pi_kiosk.py:774 | distinct whole seconds print as distinct decimal strings |
| `UploadIntake.JoinPath` | raspberry_pi_kiosk.py:774 | the joined path starts with the directory and ends with the name |
| `UploadIntake.StoredName` | raspberry_pi_kiosk.py:774 | the stored name starts with "print_", so it is never absolute |
| `UploadIntake.StoredPath` | raspberry_pi_kiosk.py:773-774 | the stored path extends the temp directory path |
| `UploadIntake.Receive` | raspberry_pi_kiosk.py:765-781 | no file part: 400 "No file provided"; empty filename: 400 "Empty filename"; stored iff the part is present, the name non-empty and saving succeeds, then at StoredPath with the original filename; a failed save answers 500 with the error message |
| `UploadIntake.StoredNameIdentifiesUpload` | raspberry_pi_kiosk.py:774 | two stored names are equal iff the uploads share the whole second and the filename |
| `UploadIntake.StoredPathIdentifiesUpload` | raspberry_pi_kiosk.py:773-774 | in one temp directory, the paths of two uploads are equal iff they share the whole second and the filename |
| `UploadIntake.JoinPathInjective` | raspberry_pi_kiosk.py:774 | joining one directory with two relative names gives one path only if the names are equal |
| `UploadIntake.StoredNameEndsWithFilename` | raspberry_pi_kiosk.py:774 | the stored name ends with the original filename |
| `UploadIntake.StoredPathInTempDir` | raspberry_pi_kiosk.py:773-774 | every stored path starts with the temp directory and ends with the original filename |
| `UploadIntake.InvalidUploadStoresNothing` | raspberry_pi_kiosk.py:765-770 | a request without a file part or with an empty filename is refused with 400 whatever the clock and the disk do |
| `KioskSession.OutcomeOfPoll` | raspberry_pi_kiosk.py:629-640 | the kiosk reports the job printed exactly when polling ended completed, "cancelled" exactly when it ended on state 8, a query error exactly when the query failed, and still printing exactly while polling goes on |
| `KioskSession.PrintedIffFirstDecisiveCompleted` | raspberry_pi_kiosk.py:622-634 | the kiosk reports success exactly when the first snapshot that stops the polling shows the job gone or completed |
| `KioskSession.Kiosk.HasFile` | raspberry_pi_kiosk.py:232 | `not self.current_file` holds exactly when there is no file or its path is empty |
| `KioskSession.Kiosk.constructor` | raspberry_pi_kiosk.py:42-55 | start-up state: welcome screen, no file, page 0 of 0, default settings, empty Konami window, zero clicks |
| `KioskSession.Kiosk.ShowWelcome` | raspberry_pi_kiosk.py:85-88 | the screen becomes welcome |
| `KioskSession.Kiosk.ShowFileConfirmation` | raspberry_pi_kiosk.py:152-155 | the screen becomes confirmation |
| `KioskSession.Kiosk.ShowPrinting` | raspberry_pi_kiosk.py:515-518 | the screen becomes printing |
| `KioskSession.Kiosk.ShowPreview` | raspberry_pi_kiosk.py:227-244 | with a file that exists and renders, the preview screen shows its pages from page 0; otherwise the welcome screen, with the old preview state kept |
| `KioskSession.Kiosk.PrevPage` | raspberry_pi_kiosk.py:482-486 | the page moves back by one exactly when Previous is enabled on a non-empty preview, and bounds are kept |
| `KioskSession.Kiosk.NextPage` | raspberry_pi_kiosk.py:488-492 | the page moves on by one exactly when Next is enabled on a non-empty preview, and bounds are kept |
| `KioskSession.Kiosk.StartPrinting` | raspberry_pi_kiosk.py:494-510 | the settings become CollectSettings of the form and the screen becomes printing |
| `KioskSession.Kiosk.DoPrint` | raspberry_pi_kiosk.py:577-640 | no connection: nothing sent, error. Otherwise the current file is sent to the kiosk's printer with CupsOptions of the settings. A rejected submission is an error; an accepted one ends as the polling outcome. Success shows the success screen with countdown 4, any error shows welcome, and undecided polling changes no screen |
| `KioskSession.Kiosk.ShowSuccess` | raspberry_pi_kiosk.py:642-684 | the screen becomes success and the countdown, set to 5 and ticked at once, is 4 |
| `KioskSession.Kiosk.DoCountdown` | raspberry_pi_kiosk.py:686-696 | off the success screen nothing changes; on it, a positive countdown drops by one and zero returns to welcome |
| `KioskSession.Kiosk.CheckKonami` | raspberry_pi_kiosk.py:709-721 | the window is the last ten keys since the last reset; party mode fires iff they equal the code, which clears the window |
| `KioskSession.Kiosk.SecretClick` | raspberry_pi_kiosk.py:723-728 | the counter is the total clicks modulo ten, stays below ten, and party mode fires iff the total is a multiple of ten |
| `KioskSession.Kiosk.ReceiveFile` | raspberry_pi_kiosk.py:763-792 | the response is Receive's decision; a stored upload becomes the current file and shows the confirmation screen; a refused one changes neither |

## Left out

- Widget construction, layout, fonts and colours are left out because they
  are presentation only. So are the spinner, the pulse animation and
  party-mode flashing (lines 85-150, 557-575, 698-707, 730-756).
  `trigger_party_mode` is represented by the `party` result of
  `CheckKonami` and `SecretClick`.
- QR generation, PIL thumbnailing and `pdf2image.convert_from_path` are
  foreign library calls. The renderer's page count (or its failure) is a
  parameter of `ShowPreview`.
- The CUPS calls (`Connection`, `getPrinters`, `printFile`, `getJobs`) and
  `time.sleep` are not modelled. The connection is a flag fixed at start-up.
  `printFile`'s answer is a parameter. `getJobs` answers are a finite
  sequence of snapshots. The printer-not-found warning at start-up is only
  a console message.
- The infinite polling loop is modelled over a finite run of snapshots.
  "Still polling" stands for a loop that has not yet stopped.
- The status-label texts in `do_print` and the page label are display only.
- The Flask server, its threads, and the cross-thread write of
  `current_file` are left out. Intake is one sequential operation. The
  JSON bodies are reduced to the status, the error text, the stored path
  and the filename. The `POST`-only route and the 500 answer for
  exceptions other than a failed save are not modelled.
- The file-size display (`filesize / 1024` formatted as a float) is left
  out because it is float formatting. `os.path.getsize` is left out with it.
- The error dialogs (`messagebox.showerror` at lines 233, 242 and 639) and
  the console logging (`print` at lines 638 and 791) are display and
  logging only; the model keeps the screen change and the error value.
- `cleanup`'s `os.remove` is file-system I/O and is left out. So is the
  Escape binding.
- `KioskSession.Kiosk.ShowPreview`: whether `current_file` still exists is
  a parameter, not a file-system query.
- `UploadIntake.JoinPath` models `os.path.join` only for a second component
  that does not start with "/". That always holds here, because the stored
  name starts with "print_".
