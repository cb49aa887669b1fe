/**
 * Print options of the kiosk: the values of the option widgets are collected
 * into the `print_settings` record (PrintKiosk.start_printing), and that record
 * is translated into the option mapping handed to CUPS (the first half of
 * PrintKiosk.do_print). The CUPS keys are the IPP job-template attributes
 * "page-ranges", "orientation-requested" and "sides" of section 5.2 of RFC 8011.
 */
module PrintOptions {

  /** Text the custom page-range entry holds until the user edits it. */
  const RangePlaceholder: string := "e.g. 1-3,5"
  /** Page-range value meaning "every page"; it is never sent to CUPS. */
  const AllPages: string := "all"

  const PageRangesKey: string := "page-ranges"
  const OrientationKey: string := "orientation-requested"
  const SidesKey: string := "sides"

  /** `orientation-requested` enum values (section 5.2.10 of RFC 8011). */
  const PortraitCode: string := "3"
  const LandscapeCode: string := "4"

  /** `sides` keywords (section 5.2.8 of RFC 8011). */
  const OneSided: string := "one-sided"
  const TwoSidedLongEdge: string := "two-sided-long-edge"
  const TwoSidedShortEdge: string := "two-sided-short-edge"

  /**
   * What the option widgets hold when "Print" is pressed: the page-range
   * radio ("all" or "custom"), the text of the custom-range entry, the
   * orientation radio ("portrait" or "landscape") and the duplex radio
   * ("none", "long" or "short"). They are kept as the strings the widgets
   * return, so the translation is also defined for any other value.
   */
  datatype FormValues = FormValues(rangeChoice: string, rangeText: string, orientation: string, duplex: string)

  /** The kiosk's `print_settings` record. */
  datatype PrintSettings = PrintSettings(pageRange: string, orientation: string, duplex: string)

  /** The settings the kiosk starts with. */
  const DefaultSettings: PrintSettings := PrintSettings(AllPages, "portrait", "none")

  /**
   * The settings collected from the form: the entry text is used only when
   * the "custom" radio is chosen and the text is not the placeholder; the
   * orientation and duplex values are copied unchanged.
   */
  function CollectSettings(f: FormValues): (s: PrintSettings)
    ensures s.orientation == f.orientation && s.duplex == f.duplex
    ensures s.pageRange != AllPages ==> f.rangeChoice == "custom" && s.pageRange == f.rangeText
    ensures f.rangeChoice == "custom" && f.rangeText != RangePlaceholder ==> s.pageRange == f.rangeText
    ensures f.rangeChoice != "custom" || f.rangeText == RangePlaceholder ==> s.pageRange == AllPages
  {
    var pageRange :=
      if f.rangeChoice == "custom" then
        if f.rangeText == RangePlaceholder then AllPages else f.rangeText
      else AllPages;
    PrintSettings(pageRange, f.orientation, f.duplex)
  }

  function OrientationCode(orientation: string): (code: string)
    ensures code == PortraitCode || code == LandscapeCode
    ensures code == LandscapeCode <==> orientation == "landscape"
  {
    if orientation == "landscape" then LandscapeCode else PortraitCode
  }

  function SidesKeyword(duplex: string): (k: string)
    ensures k == TwoSidedLongEdge <==> duplex == "long"
    ensures k == TwoSidedShortEdge <==> duplex == "short"
    ensures k == OneSided <==> duplex != "long" && duplex != "short"
  {
    if duplex == "long" then TwoSidedLongEdge
    else if duplex == "short" then TwoSidedShortEdge
    else OneSided
  }

  /**
   * The CUPS option mapping for a settings record. The page range is passed
   * through verbatim (no parsing) and omitted exactly when it is "all";
   * orientation and sides are always present; no other key appears.
   */
  function CupsOptions(s: PrintSettings): (m: map<string, string>)
    ensures m.Keys == {OrientationKey, SidesKey} + (if s.pageRange != AllPages then {PageRangesKey} else {})
    ensures PageRangesKey in m <==> s.pageRange != AllPages
    ensures PageRangesKey in m ==> m[PageRangesKey] == s.pageRange
    ensures m[OrientationKey] == LandscapeCode <==> s.orientation == "landscape"
    ensures m[OrientationKey] in {PortraitCode, LandscapeCode}
    ensures m[SidesKey] == TwoSidedLongEdge <==> s.duplex == "long"
    ensures m[SidesKey] == TwoSidedShortEdge <==> s.duplex == "short"
    ensures m[SidesKey] == OneSided <==> s.duplex != "long" && s.duplex != "short"
  {
    var base := map[OrientationKey := OrientationCode(s.orientation), SidesKey := SidesKeyword(s.duplex)];
    if s.pageRange != AllPages then base[PageRangesKey := s.pageRange] else base
  }

  /**
   * The option mapping built one key at a time, in the order the kiosk
   * builds its `options` dictionary.
   */
  method BuildOptions(s: PrintSettings) returns (options: map<string, string>)
    ensures options == CupsOptions(s)
  {
    options := map[];
    if s.pageRange != AllPages {
      options := options[PageRangesKey := s.pageRange];
    }
    if s.orientation == "landscape" {
      options := options[OrientationKey := LandscapeCode];
    } else {
      options := options[OrientationKey := PortraitCode];
    }
    if s.duplex == "long" {
      options := options[SidesKey := TwoSidedLongEdge];
    } else if s.duplex == "short" {
      options := options[SidesKey := TwoSidedShortEdge];
    } else {
      options := options[SidesKey := OneSided];
    }
  }

  /**
   * The option mappings the translation can produce: orientation and sides
   * present with one of their allowed values, an optional page range other
   * than "all", and nothing else.
   */
  predicate WellFormedOptions(m: map<string, string>) {
    && OrientationKey in m && SidesKey in m
    && m.Keys <= {PageRangesKey, OrientationKey, SidesKey}
    && m[OrientationKey] in {PortraitCode, LandscapeCode}
    && m[SidesKey] in {OneSided, TwoSidedLongEdge, TwoSidedShortEdge}
    && (PageRangesKey in m ==> m[PageRangesKey] != AllPages)
  }

  /** Reads the settings back from an option mapping (inverse of CupsOptions). */
  function SettingsFromOptions(m: map<string, string>): (s: PrintSettings)
    requires WellFormedOptions(m)
    ensures s.orientation in {"portrait", "landscape"} && s.duplex in {"none", "long", "short"}
  {
    PrintSettings(
      if PageRangesKey in m then m[PageRangesKey] else AllPages,
      if m[OrientationKey] == LandscapeCode then "landscape" else "portrait",
      if m[SidesKey] == TwoSidedLongEdge then "long"
      else if m[SidesKey] == TwoSidedShortEdge then "short"
      else "none")
  }

  /**
   * Settings whose orientation and duplex are among the values the radios
   * offer; every other value is sent as portrait / one-sided.
   */
  function Canonical(s: PrintSettings): PrintSettings {
    PrintSettings(
      s.pageRange,
      if s.orientation == "landscape" then "landscape" else "portrait",
      if s.duplex == "long" || s.duplex == "short" then s.duplex else "none")
  }

  /** Decoding the options recovers the settings, up to the fallbacks for unknown values. */
  lemma OptionsRoundTrip(s: PrintSettings)
    ensures WellFormedOptions(CupsOptions(s))
    ensures SettingsFromOptions(CupsOptions(s)) == Canonical(s)
  {
  }

  /** Every well-formed option mapping is produced by the settings read back from it. */
  lemma OptionsAreExactlyTheWellFormed(m: map<string, string>)
    requires WellFormedOptions(m)
    ensures CupsOptions(SettingsFromOptions(m)) == m
  {
    var r := CupsOptions(SettingsFromOptions(m));
    assert r.Keys == m.Keys;
    forall k | k in m ensures r[k] == m[k] {
      if k == OrientationKey {
        assert m[k] in {PortraitCode, LandscapeCode};
      } else if k == SidesKey {
        assert m[k] in {OneSided, TwoSidedLongEdge, TwoSidedShortEdge};
      }
    }
  }

  /** Settings collected from radios holding their own values translate losslessly. */
  lemma FormSettingsRoundTrip(f: FormValues)
    requires f.orientation in {"portrait", "landscape"} && f.duplex in {"none", "long", "short"}
    ensures SettingsFromOptions(CupsOptions(CollectSettings(f))) == CollectSettings(f)
  {
    OptionsRoundTrip(CollectSettings(f));
  }

  /**
   * The untouched form (all pages, portrait, single-sided, placeholder text)
   * and a landscape long-edge job on all pages send no page restriction.
   */
  lemma DefaultFormOptions()
    ensures CollectSettings(FormValues("all", RangePlaceholder, "portrait", "none")) == DefaultSettings
    ensures CupsOptions(DefaultSettings) == map[OrientationKey := PortraitCode, SidesKey := OneSided]
    ensures CupsOptions(PrintSettings(AllPages, "landscape", "long"))
         == map[OrientationKey := LandscapeCode, SidesKey := TwoSidedLongEdge]
  {
  }
}
