/** The update-check dialog: when to check for updates (manually, or daily,
    weekly or monthly), the preference that stores the choice, the switch
    between the full and the simple dialog, and the version labels. */
module UpdateCheck {
  import opened Wrappers
  import opened QtText

  /** The UpdateType values; the frequency combo lists Daily, Weekly and
      Monthly at the indices equal to their values. */
  const UpdateCheckDaily: int := 0
  const UpdateCheckWeekly: int := 1
  const UpdateCheckMonthly: int := 2
  const UpdateCheckManual: int := 3

  /** The number of items in the frequency combo. */
  const HowOftenItems: int := 3

  /** The preference key: "Frequency" inside the "UpdatePreferences" group. */
  const FrequencyKey: string := "UpdatePreferences/Frequency"

  /** The preferences store, key to stored text. */
  type Preferences = map<string, string>

  /** The combo's index after setCurrentIndex(i): i when it names an item,
      -1 (no current item) otherwise. */
  function ComboIndex(i: int): (r: int)
    ensures 0 <= i < HowOftenItems ==> r == i
    ensures !(0 <= i < HowOftenItems) ==> r == -1
  {
    if 0 <= i < HowOftenItems then i else -1
  }

  // ---------------------------------------------------------------------------
  // Reading and writing the preference
  // ---------------------------------------------------------------------------

  /** The value readUpdatePreferences takes: Manual when the key is absent,
      otherwise the stored value read with toInt (0 when it does not parse). */
  function ReadFrequency(prefs: Preferences): int {
    if FrequencyKey in prefs then ToIntOrZero(prefs[FrequencyKey]) else UpdateCheckManual
  }

  /** writeUpdatePreferences: the value stored as decimal text. */
  function WriteFrequency(prefs: Preferences, whenToCheck: int): Preferences {
    prefs[FrequencyKey := IntToString(whenToCheck)]
  }

  /** The store the constructor leaves: Monthly is stored when no frequency
      is stored yet. */
  function InitialPreferences(prefs: Preferences): Preferences {
    if FrequencyKey in prefs then prefs else WriteFrequency(prefs, UpdateCheckMonthly)
  }

  /** The frequency combo index readUpdatePreferences shows for an automatic
      mode: Daily or Weekly as stored, Monthly for anything else. */
  function DisplayedFrequency(whenToCheck: int): int {
    if whenToCheck == UpdateCheckDaily then UpdateCheckDaily
    else if whenToCheck == UpdateCheckWeekly then UpdateCheckWeekly
    else UpdateCheckMonthly
  }

  /** Writing the preference and reading it back restores the value; other
      preferences are untouched. */
  lemma FrequencyRoundTrip(prefs: Preferences, whenToCheck: int)
    requires IsInt32(whenToCheck)
    ensures ReadFrequency(WriteFrequency(prefs, whenToCheck)) == whenToCheck
    ensures forall k :: k in prefs && k != FrequencyKey ==> WriteFrequency(prefs, whenToCheck)[k] == prefs[k]
  {
    IntToStringRoundTrip(whenToCheck);
  }

  /** A store without the key reads as Manual; after the constructor's
      default it reads as Monthly, and an existing value is kept. */
  lemma InitialPreferencesRead(prefs: Preferences)
    ensures FrequencyKey !in prefs ==> ReadFrequency(prefs) == UpdateCheckManual
    ensures FrequencyKey !in prefs ==> ReadFrequency(InitialPreferences(prefs)) == UpdateCheckMonthly
    ensures FrequencyKey in prefs ==> InitialPreferences(prefs) == prefs
  {
    FrequencyRoundTrip(prefs, UpdateCheckMonthly);
  }

  /** The combo always shows one of its three items for an automatic mode,
      and shows the mode itself exactly when it is Daily, Weekly or Monthly. */
  lemma DisplayedFrequencyRule(whenToCheck: int)
    ensures 0 <= DisplayedFrequency(whenToCheck) < HowOftenItems
    ensures DisplayedFrequency(whenToCheck) == whenToCheck <==> 0 <= whenToCheck < HowOftenItems
  {
  }

  // ---------------------------------------------------------------------------
  // The simple and the default dialog
  // ---------------------------------------------------------------------------

  datatype DialogState = DefaultDialog | SimpleDialog

  /** The dialog state, whether the check-now button, the two radio buttons
      and the frequency combo are visible, and the message label. */
  datatype DialogView = DialogView(state: DialogState, controlsVisible: bool, message: string)

  const SimpleMessage: string := "Update Available!"
  const DefaultMessage: string := "How would you like to check for updates?"

  /** toSimpleUpdateCheckDialog: nothing when already simple, otherwise the
      controls are hidden and the message announces the update. */
  function ToSimple(v: DialogView): (r: DialogView)
    ensures r.state == SimpleDialog
  {
    if v.state == SimpleDialog then v else DialogView(SimpleDialog, false, SimpleMessage)
  }

  /** toDefaultUpdateCheckDialog: nothing when already default, otherwise
      the controls are shown with the question. */
  function ToDefault(v: DialogView): (r: DialogView)
    ensures r.state == DefaultDialog
  {
    if v.state == DefaultDialog then v else DialogView(DefaultDialog, true, DefaultMessage)
  }

  /** Each switch is idempotent and changes nothing in its own target state. */
  lemma SwitchesIdempotent(v: DialogView)
    ensures ToSimple(ToSimple(v)) == ToSimple(v) && ToDefault(ToDefault(v)) == ToDefault(v)
    ensures v.state == SimpleDialog <==> ToSimple(v) == v
    ensures v.state == DefaultDialog <==> ToDefault(v) == v
  {
  }

  /** Switching away and back again lands on the standard view of the state,
      whatever the view was before. */
  lemma SwitchesRoundTrip(v: DialogView)
    ensures v.state == SimpleDialog ==> ToSimple(ToDefault(v)) == DialogView(SimpleDialog, false, SimpleMessage)
    ensures v.state == DefaultDialog ==> ToDefault(ToSimple(v)) == DialogView(DefaultDialog, true, DefaultMessage)
  {
  }

  // ---------------------------------------------------------------------------
  // Version labels
  // ---------------------------------------------------------------------------

  /** The text setCurrentVersion shows: the first three "."-separated parts
      joined by ".". The source reads parts 0 to 2 unchecked, so a version
      with fewer than three parts is outside its contract. */
  function VersionDisplay(version: string): string
    requires |Split(version, '.')| >= 3
  {
    var parts := Split(version, '.');
    parts[0] + "." + parts[1] + "." + parts[2]
  }

  /** The display has exactly the first three parts of the version, and is
      the version itself when the version has exactly three parts. */
  lemma VersionDisplayParts(version: string)
    requires |Split(version, '.')| >= 3
    ensures Split(VersionDisplay(version), '.') == Split(version, '.')[..3]
    ensures |Split(version, '.')| == 3 ==> VersionDisplay(version) == version
  {
    var parts := Split(version, '.');
    var first := parts[..3];
    assert Join(first[2..], '.') == parts[2];
    assert Join(first[1..], '.') == parts[1] + "." + parts[2];
    assert Join(first, '.') == VersionDisplay(version);
    SplitJoin(first, '.');
    if |parts| == 3 {
      assert first == parts;
      JoinSplit(version, '.');
    }
  }

  /** What the update check reports back. */
  datatype UpdateReply = UpdateReply(message: string, hasError: bool, appString: string, serverString: string)

  // ---------------------------------------------------------------------------
  // The dialog
  // ---------------------------------------------------------------------------

  class UpdateCheckDialog {
    var whenToCheck: int
    var view: DialogView
    /** Which radio button is checked: "manually" when true, "automatically"
        when false (the two are exclusive). */
    var manuallyChecked: bool
    var howOftenIndex: int
    var howOftenEnabled: bool
    var currentVersion: string
    var currentVersionText: string
    var latestVersionText: string
    var feedbackText: string
    var prefs: Preferences

    /** The version and the three labels did not change. */
    twostate predicate TextsUnchanged()
      reads this
    {
      && currentVersion == old(currentVersion) && currentVersionText == old(currentVersionText)
      && latestVersionText == old(latestVersionText) && feedbackText == old(feedbackText)
    }

    /** The constructor: Monthly in memory, the default dialog, Monthly
        stored when no frequency is stored, then the preferences are read.
        The initial radio and combo state of the form is taken as
        "automatically", index 0, enabled. */
    constructor (store: Preferences)
      ensures prefs == InitialPreferences(store)
      ensures whenToCheck == ReadFrequency(InitialPreferences(store))
      ensures manuallyChecked <==> whenToCheck == UpdateCheckManual
      ensures !manuallyChecked ==> howOftenIndex == DisplayedFrequency(whenToCheck)
      ensures view == DialogView(DefaultDialog, true, DefaultMessage)
      ensures latestVersionText == "Not Checked" && feedbackText == ""
    {
      whenToCheck := UpdateCheckMonthly;
      view := DialogView(DefaultDialog, true, DefaultMessage);
      manuallyChecked := false;
      howOftenIndex := 0;
      howOftenEnabled := true;
      currentVersion := "";
      currentVersionText := "";
      latestVersionText := "Not Checked";
      feedbackText := "";
      prefs := InitialPreferences(store);
      new;
      ReadUpdatePreferences();
    }

    /** setWhenToCheck: Manual checks "manually" and disables the combo; any
        other value checks "automatically", selects that index and enables
        the combo. */
    method SetWhenToCheck(w: int)
      modifies this
      ensures whenToCheck == w
      ensures w == UpdateCheckManual ==>
        manuallyChecked && !howOftenEnabled && howOftenIndex == old(howOftenIndex)
      ensures w != UpdateCheckManual ==>
        !manuallyChecked && howOftenEnabled && howOftenIndex == ComboIndex(w)
      ensures prefs == old(prefs) && view == old(view)
      ensures currentVersion == old(currentVersion) && currentVersionText == old(currentVersionText)
      ensures latestVersionText == old(latestVersionText) && feedbackText == old(feedbackText)
    {
      whenToCheck := w;
      if whenToCheck == UpdateCheckManual {
        manuallyChecked := true;
        howOftenEnabled := false;
      } else {
        manuallyChecked := false;
        howOftenIndex := ComboIndex(w);
        howOftenEnabled := true;
      }
    }

    /** readUpdatePreferences: signals are blocked, so only the fields
        change; for an automatic mode the combo is not re-enabled. */
    method ReadUpdatePreferences()
      modifies this
      ensures whenToCheck == ReadFrequency(prefs)
      ensures manuallyChecked <==> whenToCheck == UpdateCheckManual
      ensures manuallyChecked ==> !howOftenEnabled && howOftenIndex == old(howOftenIndex)
      ensures !manuallyChecked ==>
        howOftenIndex == DisplayedFrequency(whenToCheck) && howOftenEnabled == old(howOftenEnabled)
      ensures prefs == old(prefs) && view == old(view)
      ensures currentVersion == old(currentVersion) && currentVersionText == old(currentVersionText)
      ensures latestVersionText == old(latestVersionText) && feedbackText == old(feedbackText)
    {
      whenToCheck := ReadFrequency(prefs);
      if whenToCheck == UpdateCheckManual {
        manuallyChecked := true;
        howOftenEnabled := false;
      } else {
        manuallyChecked := false;
        howOftenIndex := DisplayedFrequency(whenToCheck);
      }
    }

    /** writeUpdatePreferences. */
    method WriteUpdatePreferences()
      modifies this
      ensures prefs == WriteFrequency(old(prefs), whenToCheck)
      ensures whenToCheck == old(whenToCheck) && manuallyChecked == old(manuallyChecked)
      ensures howOftenIndex == old(howOftenIndex) && howOftenEnabled == old(howOftenEnabled)
      ensures view == old(view)
      ensures currentVersion == old(currentVersion) && currentVersionText == old(currentVersionText)
      ensures latestVersionText == old(latestVersionText) && feedbackText == old(feedbackText)
    {
      prefs := WriteFrequency(prefs, whenToCheck);
    }

    /** on_howOften_currentIndexChanged: Daily, Weekly and Monthly set that
        mode, any other index leaves it; the preference is written always. */
    method HowOftenChanged(index: int)
      modifies this
      ensures 0 <= index < HowOftenItems ==>
        whenToCheck == index && !manuallyChecked && howOftenEnabled && howOftenIndex == index
      ensures !(0 <= index < HowOftenItems) ==>
        whenToCheck == old(whenToCheck) && manuallyChecked == old(manuallyChecked)
        && howOftenIndex == old(howOftenIndex) && howOftenEnabled == old(howOftenEnabled)
      ensures prefs == WriteFrequency(old(prefs), whenToCheck)
      ensures view == old(view) && TextsUnchanged()
    {
      if index == UpdateCheckDaily {
        SetWhenToCheck(UpdateCheckDaily);
      } else if index == UpdateCheckWeekly {
        SetWhenToCheck(UpdateCheckWeekly);
      } else if index == UpdateCheckMonthly {
        SetWhenToCheck(UpdateCheckMonthly);
      }
      WriteUpdatePreferences();
    }

    /** on_automatically_toggled: when "automatically" is checked the mode
        follows the combo's index (if it names an item) and is written. */
    method AutomaticallyToggled()
      modifies this
      ensures old(manuallyChecked) ==> prefs == old(prefs) && whenToCheck == old(whenToCheck)
      ensures !old(manuallyChecked) && 0 <= old(howOftenIndex) < HowOftenItems ==>
        whenToCheck == old(howOftenIndex) && howOftenEnabled
      ensures old(manuallyChecked) ==> howOftenEnabled == old(howOftenEnabled)
      ensures !old(manuallyChecked) && !(0 <= old(howOftenIndex) < HowOftenItems) ==>
        whenToCheck == old(whenToCheck) && howOftenEnabled == old(howOftenEnabled)
      ensures !old(manuallyChecked) ==> prefs == WriteFrequency(old(prefs), whenToCheck)
      ensures manuallyChecked == old(manuallyChecked) && howOftenIndex == old(howOftenIndex)
      ensures view == old(view) && TextsUnchanged()
    {
      if !manuallyChecked {
        var index := howOftenIndex;
        if index == UpdateCheckDaily {
          SetWhenToCheck(UpdateCheckDaily);
        } else if index == UpdateCheckWeekly {
          SetWhenToCheck(UpdateCheckWeekly);
        } else if index == UpdateCheckMonthly {
          SetWhenToCheck(UpdateCheckMonthly);
        }
        WriteUpdatePreferences();
      }
    }

    /** on_manually_toggled: when "manually" is checked the mode becomes
        Manual and is written. */
    method ManuallyToggled()
      modifies this
      ensures old(manuallyChecked) ==>
        whenToCheck == UpdateCheckManual && !howOftenEnabled
        && prefs == WriteFrequency(old(prefs), UpdateCheckManual)
      ensures !old(manuallyChecked) ==>
        prefs == old(prefs) && whenToCheck == old(whenToCheck) && howOftenEnabled == old(howOftenEnabled)
      ensures manuallyChecked == old(manuallyChecked) && howOftenIndex == old(howOftenIndex)
      ensures view == old(view) && TextsUnchanged()
    {
      if manuallyChecked {
        SetWhenToCheck(UpdateCheckManual);
        WriteUpdatePreferences();
      }
    }

    method ToSimpleUpdateCheckDialog()
      modifies this
      ensures view == ToSimple(old(view))
      ensures whenToCheck == old(whenToCheck) && prefs == old(prefs)
      ensures manuallyChecked == old(manuallyChecked)
      ensures howOftenIndex == old(howOftenIndex) && howOftenEnabled == old(howOftenEnabled)
      ensures TextsUnchanged()
    {
      if view.state == SimpleDialog {
        return;
      }
      view := DialogView(SimpleDialog, false, SimpleMessage);
    }

    method ToDefaultUpdateCheckDialog()
      modifies this
      ensures view == ToDefault(old(view))
      ensures whenToCheck == old(whenToCheck) && prefs == old(prefs)
      ensures manuallyChecked == old(manuallyChecked)
      ensures howOftenIndex == old(howOftenIndex) && howOftenEnabled == old(howOftenEnabled)
      ensures TextsUnchanged()
    {
      if view.state == DefaultDialog {
        return;
      }
      view := DialogView(DefaultDialog, true, DefaultMessage);
    }

    /** setCurrentVersion: the full version is kept, the label shows its
        first three parts. */
    method SetCurrentVersion(version: string)
      requires |Split(version, '.')| >= 3
      modifies this
      ensures currentVersion == version && currentVersionText == VersionDisplay(version)
      ensures latestVersionText == old(latestVersionText) && feedbackText == old(feedbackText)
      ensures whenToCheck == old(whenToCheck) && prefs == old(prefs) && view == old(view)
      ensures manuallyChecked == old(manuallyChecked)
      ensures howOftenIndex == old(howOftenIndex) && howOftenEnabled == old(howOftenEnabled)
    {
      currentVersion := version;
      var parts := Split(currentVersion, '.');
      currentVersionText := parts[0] + "." + parts[1] + "." + parts[2];
    }

    /** LatestVersionReplied: the reply's message is shown; an error shows
        "Error!" as the latest version and leaves the current version, any
        other reply updates both versions. A successful reply's application
        string must have three parts, as setCurrentVersion demands. */
    method LatestVersionReplied(reply: UpdateReply)
      requires !reply.hasError ==> |Split(reply.appString, '.')| >= 3
      modifies this
      ensures feedbackText == reply.message
      ensures reply.hasError ==>
        latestVersionText == "Error!"
        && currentVersion == old(currentVersion) && currentVersionText == old(currentVersionText)
      ensures !reply.hasError ==>
        latestVersionText == reply.serverString && currentVersion == reply.appString
        && currentVersionText == VersionDisplay(reply.appString)
      ensures whenToCheck == old(whenToCheck) && prefs == old(prefs) && view == old(view)
      ensures manuallyChecked == old(manuallyChecked)
      ensures howOftenIndex == old(howOftenIndex) && howOftenEnabled == old(howOftenEnabled)
    {
      feedbackText := reply.message;
      if !reply.hasError {
        currentVersionText := reply.appString;
        SetCurrentVersion(reply.appString);
        latestVersionText := reply.serverString;
      } else {
        latestVersionText := "Error!";
      }
    }
  }
}
