/** The AIM representation window: the scan of a directory of .ang slice
    files for the largest slice number and the file prefix, the settings it
    reads with fallbacks and writes back, the dirty-document and close
    decision, the drag-and-drop accept rule, and the parameters its Go
    buttons hand to the reconstruction and grain-generator workers. */
module RepresentationWindow {
  import opened Wrappers
  import opened QtText

  // ---------------------------------------------------------------------------
  // QRegExp("(\\d+)") over a base name
  // ---------------------------------------------------------------------------

  /** No digit in s[a..b]. */
  predicate NoDigitIn(s: string, a: nat, b: nat)
    requires a <= b <= |s|
  {
    forall k :: a <= k < b ==> !IsDigit(s[k])
  }

  /** Only digits in s[a..b]. */
  predicate OnlyDigitsIn(s: string, a: nat, b: nat)
    requires a <= b <= |s|
  {
    forall k :: a <= k < b ==> IsDigit(s[k])
  }

  /** The first position at or after `from` holding a digit, |s| if none. */
  function NextDigit(s: string, from: nat): (p: nat)
    requires from <= |s|
    ensures from <= p <= |s|
    ensures p < |s| ==> IsDigit(s[p])
    ensures NoDigitIn(s, from, p)
    decreases |s| - from
  {
    if from == |s| || IsDigit(s[from]) then from else NextDigit(s, from + 1)
  }

  /** The end of the greedy digit run starting at p. */
  function RunEnd(s: string, p: nat): (q: nat)
    requires p <= |s|
    ensures p <= q <= |s|
    ensures OnlyDigitsIn(s, p, q)
    ensures q < |s| ==> !IsDigit(s[q])
    decreases |s| - p
  {
    if p == |s| || !IsDigit(s[p]) then p else RunEnd(s, p + 1)
  }

  /** QRegExp::indexIn: where the next match starts at or after `from`, -1
      when there is none. */
  function IndexIn(s: string, from: nat): int
    requires from <= |s|
  {
    var p := NextDigit(s, from);
    if p == |s| then -1 else p
  }

  /** QRegExp::matchedLength of the (greedy) match starting at p. */
  function MatchedLength(s: string, p: nat): nat
    requires p <= |s|
  {
    RunEnd(s, p) - p
  }

  datatype DigitRun = DigitRun(start: nat, text: string)

  /** The run is a maximal, non-empty run of digits of `s` at or after `from`. */
  predicate MaximalRunOf(s: string, from: nat, r: DigitRun) {
    && from <= r.start
    && r.start + |r.text| <= |s|
    && |r.text| > 0 && AllDigits(r.text)
    && r.text == s[r.start..r.start + |r.text|]
    && (r.start + |r.text| == |s| || !IsDigit(s[r.start + |r.text|]))
  }

  /** Each run ends strictly before the next one starts. */
  predicate Separated(runs: seq<DigitRun>) {
    forall i :: 0 < i < |runs| ==> runs[i - 1].start + |runs[i - 1].text| < runs[i].start
  }

  /** Every maximal run of digits at or after `from`, in order (the runs are
      characterised by DigitRunsAreMaximal). */
  function DigitRunsFrom(s: string, from: nat): (runs: seq<DigitRun>)
    requires from <= |s|
    decreases |s| - from
  {
    var p := NextDigit(s, from);
    if p == |s| then []
    else [DigitRun(p, s[p..RunEnd(s, p)])] + DigitRunsFrom(s, RunEnd(s, p))
  }

  /** Each run found is a maximal non-empty run of digits of the text, and
      the runs come in order without overlapping. */
  lemma {:induction false} DigitRunsAreMaximal(s: string, from: nat)
    requires from <= |s|
    ensures var runs := DigitRunsFrom(s, from);
      (forall i :: 0 <= i < |runs| ==> MaximalRunOf(s, from, runs[i])) && Separated(runs)
    decreases |s| - from
  {
    var p := NextDigit(s, from);
    if p < |s| {
      var q := RunEnd(s, p);
      var rest := DigitRunsFrom(s, q);
      DigitRunsAreMaximal(s, q);
      var runs := DigitRunsFrom(s, from);
      assert runs == [DigitRun(p, s[p..q])] + rest;
      assert MaximalRunOf(s, from, runs[0]);
      forall i | 0 < i < |runs|
        ensures MaximalRunOf(s, from, runs[i])
      {
        assert runs[i] == rest[i - 1];
      }
      forall i | 0 < i < |runs|
        ensures runs[i - 1].start + |runs[i - 1].text| < runs[i].start
      {
        if i > 1 {
          assert runs[i - 1] == rest[i - 2] && runs[i] == rest[i - 1];
        }
      }
    }
  }

  function Texts(runs: seq<DigitRun>): (ts: seq<string>)
    ensures |ts| == |runs|
    ensures forall i :: 0 <= i < |runs| ==> ts[i] == runs[i].text
  {
    if runs == [] then [] else [runs[0].text] + Texts(runs[1..])
  }

  function Concat(ts: seq<string>): string {
    if ts == [] then [] else ts[0] + Concat(ts[1..])
  }

  /** The digits of a text, in order. */
  function DigitsOnly(t: string): string {
    if t == [] then [] else (if IsDigit(t[0]) then [t[0]] else []) + DigitsOnly(t[1..])
  }

  lemma {:induction false} DigitsOnlyAppend(a: string, b: string)
    ensures DigitsOnly(a + b) == DigitsOnly(a) + DigitsOnly(b)
  {
    if a == [] {
      assert a + b == b;
    } else {
      var h := if IsDigit(a[0]) then [a[0]] else [];
      assert (a + b)[0] == a[0] && (a + b)[1..] == a[1..] + b;
      assert DigitsOnly(a + b) == h + DigitsOnly(a[1..] + b);
      assert DigitsOnly(a) == h + DigitsOnly(a[1..]);
      DigitsOnlyAppend(a[1..], b);
      assert h + (DigitsOnly(a[1..]) + DigitsOnly(b)) == (h + DigitsOnly(a[1..])) + DigitsOnly(b);
    }
  }

  lemma {:induction false} DigitsOnlyOfDigits(t: string)
    requires AllDigits(t)
    ensures DigitsOnly(t) == t
  {
    if t != [] {
      DigitsOnlyOfDigits(t[1..]);
    }
  }

  lemma {:induction false} DigitsOnlyOfNonDigits(t: string)
    requires forall k :: 0 <= k < |t| ==> !IsDigit(t[k])
    ensures DigitsOnly(t) == []
  {
    if t != [] {
      DigitsOnlyOfNonDigits(t[1..]);
    }
  }

  lemma SliceThree(s: string, a: nat, b: nat, c: nat)
    requires a <= b <= c <= |s|
    ensures s[a..] == s[a..b] + s[b..c] + s[c..]
  {
  }

  /** One step of the run scan: the texts start with the run at the next digit. */
  lemma RunTextsStep(s: string, from: nat)
    requires from <= |s| && NextDigit(s, from) < |s|
    ensures var p := NextDigit(s, from); var q := RunEnd(s, p);
      Concat(Texts(DigitRunsFrom(s, from))) == s[p..q] + Concat(Texts(DigitRunsFrom(s, q)))
  {
    var p := NextDigit(s, from);
    var q := RunEnd(s, p);
    var runs := DigitRunsFrom(s, from);
    assert runs == [DigitRun(p, s[p..q])] + DigitRunsFrom(s, q);
    assert Texts(runs) == [s[p..q]] + Texts(DigitRunsFrom(s, q));
  }

  /** The digits of s[from..] are the run at the next digit and then those
      after it. */
  lemma DigitsOnlyStep(s: string, from: nat)
    requires from <= |s| && NextDigit(s, from) < |s|
    ensures var p := NextDigit(s, from); var q := RunEnd(s, p);
      DigitsOnly(s[from..]) == s[p..q] + DigitsOnly(s[q..])
  {
    var p := NextDigit(s, from);
    var q := RunEnd(s, p);
    SliceThree(s, from, p, q);
    DigitsOnlyAppend(s[from..p] + s[p..q], s[q..]);
    DigitsOnlyAppend(s[from..p], s[p..q]);
    DigitsOnlyOfNonDigits(s[from..p]);
    DigitsOnlyOfDigits(s[p..q]);
  }

  /** The runs found, read one after the other, are exactly the digits of the
      text, in order: no digit is skipped and nothing else is captured. */
  lemma {:induction false} DigitRunsCoverDigits(s: string, from: nat)
    requires from <= |s|
    ensures Concat(Texts(DigitRunsFrom(s, from))) == DigitsOnly(s[from..])
    decreases |s| - from
  {
    var p := NextDigit(s, from);
    if p == |s| {
      DigitsOnlyOfNonDigits(s[from..]);
    } else {
      RunTextsStep(s, from);
      DigitsOnlyStep(s, from);
      DigitRunsCoverDigits(s, RunEnd(s, p));
    }
  }

  /** The text before the last of the runs, None when there are none. */
  function PrefixBeforeLast(fn: string, runs: seq<DigitRun>): Option<string> {
    if runs == [] then None
    else
      var start := runs[|runs| - 1].start;
      if start <= |fn| then Some(fn[..start]) else None
  }

  /** The prefix recorded for a base name: the text before its last digit
      run, None when it has no digits. */
  function LastRunPrefix(fn: string): Option<string> {
    PrefixBeforeLast(fn, DigitRunsFrom(fn, 0))
  }

  /** The slice number of a base name: its first digit run read as an int
      (0 when it does not fit), None when it has no digits. */
  function FirstSliceNumber(fn: string): Option<int> {
    var runs := DigitRunsFrom(fn, 0);
    if runs == [] then None else Some(ToIntOrZero(runs[0].text))
  }

  /** One match of the loop: the runs are the run at the next digit, then
      the rest. */
  lemma RunsStep(fn: string, from: nat)
    requires from <= |fn| && NextDigit(fn, from) < |fn|
    ensures var p := NextDigit(fn, from); var q := RunEnd(fn, p);
      DigitRunsFrom(fn, from) == [DigitRun(p, fn[p..q])] + DigitRunsFrom(fn, q)
  {
  }

  lemma TextsAppend(runs: seq<DigitRun>, r: DigitRun)
    ensures Texts(runs + [r]) == Texts(runs) + [r.text]
  {
  }

  /** The runs already matched, followed by those still ahead, are all the
      runs of the name. */
  predicate MatchedSoFar(fn: string, from: nat, done: seq<DigitRun>)
    requires from <= |fn|
  {
    done + DigitRunsFrom(fn, from) == DigitRunsFrom(fn, 0)
  }

  /** One match of the loop keeps its invariants. */
  lemma MatchStep(fn: string, from: nat, done: seq<DigitRun>)
    requires from <= |fn| && NextDigit(fn, from) < |fn|
    requires MatchedSoFar(fn, from, done)
    ensures var p := NextDigit(fn, from); var q := RunEnd(fn, p); var r := DigitRun(p, fn[p..q]);
      && MatchedSoFar(fn, q, done + [r])
      && Texts(done + [r]) == Texts(done) + [fn[p..q]]
      && PrefixBeforeLast(fn, done + [r]) == Some(fn[..p])
  {
    TextsAppend(done, DigitRun(NextDigit(fn, from), fn[NextDigit(fn, from)..RunEnd(fn, NextDigit(fn, from))]));
    var p := NextDigit(fn, from);
    var q := RunEnd(fn, p);
    RunsStep(fn, from);
    assert done + ([DigitRun(p, fn[p..q])] + DigitRunsFrom(fn, q))
        == (done + [DigitRun(p, fn[p..q])]) + DigitRunsFrom(fn, q);
  }

  /** The state of the regex loop: `pos` is the next match at or after
      `from`, `done` the runs matched so far, and the list and the prefix
      are those the matched runs give. */
  predicate Scanning(fn: string, from: nat, pos: int, done: seq<DigitRun>,
                     list: seq<string>, prefix: Option<string>) {
    && from <= |fn| && pos == IndexIn(fn, from)
    && MatchedSoFar(fn, from, done)
    && list == Texts(done) && prefix == PrefixBeforeLast(fn, done)
  }

  /** One turn of the regex loop keeps its state and moves past the match. */
  lemma ScanningStep(fn: string, from: nat, pos: int, done: seq<DigitRun>,
                     list: seq<string>, prefix: Option<string>)
    requires Scanning(fn, from, pos, done, list, prefix) && pos != -1
    ensures 0 <= pos < pos + MatchedLength(fn, pos) <= |fn|
    ensures from < pos + MatchedLength(fn, pos)
    ensures var q := pos + MatchedLength(fn, pos);
      Scanning(fn, q, IndexIn(fn, q), done + [DigitRun(pos, fn[pos..q])],
               list + [fn[pos..q]], Some(fn[..pos]))
  {
    assert pos == NextDigit(fn, from) < |fn|;
    assert pos + MatchedLength(fn, pos) == RunEnd(fn, pos);
    MatchStep(fn, from, done);
  }

  /** When no match is left, the list and the prefix are those of all the
      runs of the name. */
  lemma ScanningDone(fn: string, from: nat, pos: int, done: seq<DigitRun>,
                     list: seq<string>, prefix: Option<string>)
    requires Scanning(fn, from, pos, done, list, prefix) && pos == -1
    ensures list == Texts(DigitRunsFrom(fn, 0)) && prefix == LastRunPrefix(fn)
  {
    assert DigitRunsFrom(fn, from) == [];
    assert done + [] == done;
  }

  /** The regex loop over one base name: every match is appended to the
      list, and the prefix is reset to the text before each match. */
  method ScanBaseName(fn: string) returns (list: seq<string>, prefix: Option<string>)
    ensures list == Texts(DigitRunsFrom(fn, 0))
    ensures prefix == LastRunPrefix(fn)
  {
    list := [];
    prefix := None;
    ghost var from: nat := 0;
    ghost var done: seq<DigitRun> := [];
    var pos := IndexIn(fn, 0);
    assert MatchedSoFar(fn, 0, done) by {
      assert [] + DigitRunsFrom(fn, 0) == DigitRunsFrom(fn, 0);
    }
    while pos != -1
      invariant Scanning(fn, from, pos, done, list, prefix)
      decreases |fn| - from
    {
      ScanningStep(fn, from, pos, done, list, prefix);
      var end := pos + MatchedLength(fn, pos);
      done := done + [DigitRun(pos, fn[pos..end])];
      list := list + [fn[pos..end]];
      prefix := Some(fn[..pos]);
      from := end;
      pos := IndexIn(fn, end);
    }
    ScanningDone(fn, from, pos, done, list, prefix);
  }

  // ---------------------------------------------------------------------------
  // findAngMaxSliceAndPrefix
  // ---------------------------------------------------------------------------

  /** An entry of the directory listing filtered by "*.ang". */
  datatype DirEntry = DirEntry(path: string, isFile: bool)

  /** The test the loop applies to each entry. */
  predicate Scanned(e: DirEntry) {
    Compare(Suffix(e.path), ".ang") != 0 && e.isFile
  }

  function EntrySlice(e: DirEntry): Option<int> {
    if Scanned(e) then FirstSliceNumber(BaseName(e.path)) else None
  }

  function EntryPrefix(e: DirEntry): Option<string> {
    if Scanned(e) then LastRunPrefix(BaseName(e.path)) else None
  }

  /** maxSlice after the entries: starts at 0 and is raised by any larger
      slice number. */
  function ScanMax(entries: seq<DirEntry>): int {
    if entries == [] then 0
    else
      var previous := ScanMax(entries[..|entries| - 1]);
      var s := EntrySlice(entries[|entries| - 1]);
      if s.Some? && s.value > previous then s.value else previous
  }

  /** fPrefix after the entries: starts empty and is replaced by the prefix of
      every file with digits. */
  function ScanPrefix(entries: seq<DirEntry>): string {
    if entries == [] then ""
    else
      var p := EntryPrefix(entries[|entries| - 1]);
      if p.Some? then p.value else ScanPrefix(entries[..|entries| - 1])
  }

  /** The suffix test never rejects anything: only isFile filters. */
  lemma ScannedIffFile(e: DirEntry)
    ensures Scanned(e) <==> e.isFile
  {
    SuffixNeverDotAng(e.path);
  }

  /** maxSlice is the largest slice number of the scanned files, and 0 when
      none has digits or all are smaller. */
  lemma {:induction false} ScanMaxIsMaximum(entries: seq<DirEntry>)
    ensures ScanMax(entries) >= 0
    ensures forall k :: 0 <= k < |entries| && EntrySlice(entries[k]).Some? ==>
      EntrySlice(entries[k]).value <= ScanMax(entries)
    ensures ScanMax(entries) == 0 ||
      exists k :: 0 <= k < |entries| && EntrySlice(entries[k]) == Some(ScanMax(entries))
  {
    if entries != [] {
      var init := entries[..|entries| - 1];
      ScanMaxIsMaximum(init);
      forall k | 0 <= k < |entries| && EntrySlice(entries[k]).Some?
        ensures EntrySlice(entries[k]).value <= ScanMax(entries)
      {
        if k < |entries| - 1 {
          assert entries[k] == init[k];
        }
      }
      if ScanMax(entries) != 0 && ScanMax(entries) == ScanMax(init) {
        var k :| 0 <= k < |init| && EntrySlice(init[k]) == Some(ScanMax(init));
        assert entries[k] == init[k];
      }
    }
  }

  /** The prefix comes from the last scanned file whose base name has digits. */
  lemma {:induction false} ScanPrefixFromLastFile(entries: seq<DirEntry>, k: nat)
    requires k < |entries| && EntryPrefix(entries[k]).Some?
    requires forall j :: k < j < |entries| ==> EntryPrefix(entries[j]).None?
    ensures ScanPrefix(entries) == EntryPrefix(entries[k]).value
    decreases |entries|
  {
    if k < |entries| - 1 {
      var init := entries[..|entries| - 1];
      assert init[k] == entries[k];
      forall j | k < j < |init|
        ensures EntryPrefix(init[j]).None?
      {
        assert init[j] == entries[j];
      }
      ScanPrefixFromLastFile(init, k);
    }
  }

  /** With no digits in any scanned name the prefix stays empty. */
  lemma {:induction false} ScanPrefixEmpty(entries: seq<DirEntry>)
    requires forall j :: 0 <= j < |entries| ==> EntryPrefix(entries[j]).None?
    ensures ScanPrefix(entries) == ""
  {
    if entries != [] {
      var init := entries[..|entries| - 1];
      forall j | 0 <= j < |init|
        ensures EntryPrefix(init[j]).None?
      {
        assert init[j] == entries[j];
      }
      ScanPrefixEmpty(init);
    }
  }

  /** The scan of one entry's base name gives that entry's slice and prefix. */
  lemma EntryScan(e: DirEntry, list: seq<string>, prefix: Option<string>)
    requires Scanned(e)
    requires list == Texts(DigitRunsFrom(BaseName(e.path), 0)) && prefix == LastRunPrefix(BaseName(e.path))
    ensures |list| > 0 <==> EntrySlice(e).Some?
    ensures |list| > 0 ==> ToIntOrZero(list[0]) == EntrySlice(e).value
    ensures prefix == EntryPrefix(e)
  {
  }

  /** ScanMax and ScanPrefix over one more entry. */
  lemma ScanExtend(entries: seq<DirEntry>, i: nat)
    requires i < |entries|
    ensures var s := EntrySlice(entries[i]); var m := ScanMax(entries[..i]);
      ScanMax(entries[..i + 1]) == if s.Some? && s.value > m then s.value else m
    ensures var p := EntryPrefix(entries[i]);
      ScanPrefix(entries[..i + 1]) == if p.Some? then p.value else ScanPrefix(entries[..i])
  {
    assert entries[..i + 1][..i] == entries[..i];
  }

  /** The loop over the listing: the largest first number of any scanned
      base name (at least 0), and the prefix of the last one with digits. */
  method ScanListing(entries: seq<DirEntry>) returns (maxSlice: int, fPrefix: string)
    ensures maxSlice == ScanMax(entries) && fPrefix == ScanPrefix(entries)
  {
    maxSlice := 0;
    fPrefix := "";
    var i := 0;
    while i < |entries|
      invariant 0 <= i <= |entries|
      invariant maxSlice == ScanMax(entries[..i]) && fPrefix == ScanPrefix(entries[..i])
    {
      var fi := entries[i];
      ScanExtend(entries, i);
      if Compare(Suffix(fi.path), ".ang") != 0 && fi.isFile {
        var list, p := ScanBaseName(BaseName(fi.path));
        EntryScan(fi, list, p);
        if p.Some? {
          fPrefix := p.value;
        }
        if |list| > 0 {
          var currValue := ToIntOrZero(list[0]);
          if currValue > maxSlice {
            maxSlice := currValue;
          }
        }
      }
      i := i + 1;
    }
    assert entries[..|entries|] == entries;
  }

  // ---------------------------------------------------------------------------
  // Settings
  // ---------------------------------------------------------------------------

  /** The settings store, key to stored text. */
  type SettingsStore = map<string, string>

  /** READ_SETTING for an int: the stored value when it parses, else the default. */
  function ReadInt(prefs: SettingsStore, key: string, default: int): int {
    if key in prefs && ParseInt(prefs[key]).Some? then ParseInt(prefs[key]).value else default
  }

  /** READ_COMBO_BOX: the stored index when it parses, else 0. */
  function ReadComboIndex(prefs: SettingsStore, key: string): int {
    ReadInt(prefs, key, 0)
  }

  /** READ_STRING_SETTING / READ_FILEPATH_SETTING: the stored text, or
      emptyValue when it is absent or empty. */
  function ReadText(prefs: SettingsStore, key: string, emptyValue: string): string {
    var t := if key in prefs then prefs[key] else "";
    if t == "" then emptyValue else t
  }

  /** READ_BOOL_SETTING: the stored text's boolean when the text is not
      empty, else emptyValue. */
  function ReadBool(prefs: SettingsStore, key: string, emptyValue: bool): bool {
    var t := if key in prefs then prefs[key] else "";
    if t == "" then emptyValue else ToBool(t)
  }

  /** A boolean written by WRITE_BOOL_SETTING reads back as itself, whatever
      the default; a missing key reads as the default. */
  lemma BoolSettingRoundTrip(prefs: SettingsStore, key: string, b: bool, emptyValue: bool)
    ensures ReadBool(prefs[key := BoolText(b)], key, emptyValue) == b
    ensures key !in prefs ==> ReadBool(prefs, key, emptyValue) == emptyValue
  {
    BoolTextRoundTrip(b);
  }

  /** A read differs from its default only when a parsable value is stored:
      a missing key or a value that does not parse falls back. */
  lemma ReadIntFallback(prefs: SettingsStore, key: string, default: int)
    ensures ReadInt(prefs, key, default) != default ==> key in prefs && ParseInt(prefs[key]).Some?
    ensures key !in prefs ==> ReadInt(prefs, key, default) == default
    ensures key in prefs && ParseInt(prefs[key]).None? ==> ReadInt(prefs, key, default) == default
    ensures ReadComboIndex(prefs, key) != 0 ==> key in prefs && ParseInt(prefs[key]).Some?
  {
  }

  /** An int written as text reads back as itself, whatever the default. */
  lemma IntSettingRoundTrip(prefs: SettingsStore, key: string, v: int, default: int)
    requires IsInt32(v)
    ensures ReadInt(prefs[key := IntToString(v)], key, default) == v
  {
    IntToStringRoundTrip(v);
  }

  /** The values shown by the window's input widgets that the settings and
      the Go buttons use. */
  datatype Form = Form(
    angDir: string, outputDir: string, angMaxSlice: int, angFilePrefix: string,
    zStartIndex: int, zEndIndex: int, zSpacing: string, minAllowedGrainSize: int,
    crystalStructure: int,
    ggInputDir: string, ggOutputDir: string, ggNumGrains: int,
    ggCrystalStructure: int, ggShapeClass: int, ggOverlapAssignment: int)

  /** readSettings, field by field, with the defaults of the source. */
  function FormFromSettings(prefs: SettingsStore): Form {
    Form(
      ReadText(prefs, "angDir", ""), ReadText(prefs, "outputDir", ""),
      ReadInt(prefs, "angMaxSlice", 300), ReadText(prefs, "angFilePrefix", ""),
      ReadInt(prefs, "zStartIndex", 1), ReadInt(prefs, "zEndIndex", 10),
      ReadText(prefs, "zSpacing", "0.25"), ReadInt(prefs, "minAllowedGrainSize", 8),
      ReadComboIndex(prefs, "crystalStructure"),
      ReadText(prefs, "gg_InputDir", ""), ReadText(prefs, "gg_OutputDir", ""),
      ReadInt(prefs, "gg_NumGrains", 1000),
      ReadComboIndex(prefs, "gg_CrystalStructure"), ReadComboIndex(prefs, "gg_ShapeClass"),
      ReadComboIndex(prefs, "gg_OverlapAssignment"))
  }

  /** writeSettings: every value stored under its widget's name, numbers as
      decimal text. */
  function SettingsWithForm(prefs: SettingsStore, f: Form): SettingsStore {
    prefs["angDir" := f.angDir]["outputDir" := f.outputDir]
         ["angFilePrefix" := f.angFilePrefix]["angMaxSlice" := IntToString(f.angMaxSlice)]
         ["zStartIndex" := IntToString(f.zStartIndex)]["zEndIndex" := IntToString(f.zEndIndex)]
         ["zSpacing" := f.zSpacing]["minAllowedGrainSize" := IntToString(f.minAllowedGrainSize)]
         ["crystalStructure" := IntToString(f.crystalStructure)]
         ["gg_InputDir" := f.ggInputDir]["gg_OutputDir" := f.ggOutputDir]
         ["gg_NumGrains" := IntToString(f.ggNumGrains)]
         ["gg_CrystalStructure" := IntToString(f.ggCrystalStructure)]
         ["gg_ShapeClass" := IntToString(f.ggShapeClass)]
         ["gg_OverlapAssignment" := IntToString(f.ggOverlapAssignment)]
  }

  /** writeSettings with the two reconstruction check boxes, which are
      stored under their own names besides the form. */
  function SettingsWithWindow(prefs: SettingsStore, f: Form, mergeTwins: bool, alreadyFormed: bool): SettingsStore {
    SettingsWithForm(prefs, f)["mergeTwins" := BoolText(mergeTwins)]["alreadyFormed" := BoolText(alreadyFormed)]
  }

  predicate FormFitsInt32(f: Form) {
    && IsInt32(f.angMaxSlice) && IsInt32(f.zStartIndex) && IsInt32(f.zEndIndex)
    && IsInt32(f.minAllowedGrainSize) && IsInt32(f.crystalStructure)
    && IsInt32(f.ggNumGrains) && IsInt32(f.ggCrystalStructure)
    && IsInt32(f.ggShapeClass) && IsInt32(f.ggOverlapAssignment)
  }

  /** The text settings are stored as they are shown. */
  lemma TextSettingsReadBack(prefs: SettingsStore, f: Form)
    ensures var p := SettingsWithForm(prefs, f);
      && p["angDir"] == f.angDir && p["outputDir"] == f.outputDir
      && p["angFilePrefix"] == f.angFilePrefix && p["zSpacing"] == f.zSpacing
      && p["gg_InputDir"] == f.ggInputDir && p["gg_OutputDir"] == f.ggOutputDir
  {
    ReconstructionTextsStored(prefs, f);
    GrainGeneratorTextsStored(prefs, f);
  }

  lemma ReconstructionTextsStored(prefs: SettingsStore, f: Form)
    ensures var p := SettingsWithForm(prefs, f);
      && p["angDir"] == f.angDir && p["outputDir"] == f.outputDir
      && p["angFilePrefix"] == f.angFilePrefix && p["zSpacing"] == f.zSpacing
  {
  }

  lemma GrainGeneratorTextsStored(prefs: SettingsStore, f: Form)
    ensures var p := SettingsWithForm(prefs, f);
      p["gg_InputDir"] == f.ggInputDir && p["gg_OutputDir"] == f.ggOutputDir
  {
  }

  /** The reconstruction tab's numbers read back as written. */
  lemma ReconstructionSettingsReadBack(prefs: SettingsStore, f: Form)
    requires FormFitsInt32(f)
    ensures var p := SettingsWithForm(prefs, f);
      && ReadInt(p, "angMaxSlice", 300) == f.angMaxSlice
      && ReadInt(p, "zStartIndex", 1) == f.zStartIndex
      && ReadInt(p, "zEndIndex", 10) == f.zEndIndex
      && ReadInt(p, "minAllowedGrainSize", 8) == f.minAllowedGrainSize
      && ReadComboIndex(p, "crystalStructure") == f.crystalStructure
  {
    var p := SettingsWithForm(prefs, f);
    assert p["angMaxSlice"] == IntToString(f.angMaxSlice);
    assert p["zStartIndex"] == IntToString(f.zStartIndex);
    assert p["zEndIndex"] == IntToString(f.zEndIndex);
    assert p["minAllowedGrainSize"] == IntToString(f.minAllowedGrainSize);
    assert p["crystalStructure"] == IntToString(f.crystalStructure);
    IntToStringRoundTrip(f.angMaxSlice);
    IntToStringRoundTrip(f.zStartIndex);
    IntToStringRoundTrip(f.zEndIndex);
    IntToStringRoundTrip(f.minAllowedGrainSize);
    IntToStringRoundTrip(f.crystalStructure);
  }

  /** The grain generator tab's numbers read back as written. */
  lemma GrainGeneratorSettingsReadBack(prefs: SettingsStore, f: Form)
    requires FormFitsInt32(f)
    ensures var p := SettingsWithForm(prefs, f);
      && ReadInt(p, "gg_NumGrains", 1000) == f.ggNumGrains
      && ReadComboIndex(p, "gg_CrystalStructure") == f.ggCrystalStructure
      && ReadComboIndex(p, "gg_ShapeClass") == f.ggShapeClass
      && ReadComboIndex(p, "gg_OverlapAssignment") == f.ggOverlapAssignment
  {
    var p := SettingsWithForm(prefs, f);
    assert p["gg_NumGrains"] == IntToString(f.ggNumGrains);
    assert p["gg_CrystalStructure"] == IntToString(f.ggCrystalStructure);
    assert p["gg_ShapeClass"] == IntToString(f.ggShapeClass);
    assert p["gg_OverlapAssignment"] == IntToString(f.ggOverlapAssignment);
    IntToStringRoundTrip(f.ggNumGrains);
    IntToStringRoundTrip(f.ggCrystalStructure);
    IntToStringRoundTrip(f.ggShapeClass);
    IntToStringRoundTrip(f.ggOverlapAssignment);
  }

  /** Writing the settings and reading them back restores the form, as long
      as the z spacing is not empty (an empty one reads back as "0.25"). */
  lemma SettingsRoundTrip(prefs: SettingsStore, f: Form)
    requires FormFitsInt32(f)
    ensures f.zSpacing != "" <==> FormFromSettings(SettingsWithForm(prefs, f)) == f
    ensures f.zSpacing == "" ==> FormFromSettings(SettingsWithForm(prefs, f)) == f.(zSpacing := "0.25")
  {
    TextSettingsReadBack(prefs, f);
    ReconstructionSettingsReadBack(prefs, f);
    GrainGeneratorSettingsReadBack(prefs, f);
  }

  /** The check boxes read back as written, with their defaults true and
      false, and storing them leaves the form's read-back as it was. */
  lemma CheckBoxSettingsRoundTrip(prefs: SettingsStore, f: Form, mergeTwins: bool, alreadyFormed: bool)
    ensures var p := SettingsWithWindow(prefs, f, mergeTwins, alreadyFormed);
      && ReadBool(p, "mergeTwins", true) == mergeTwins
      && ReadBool(p, "alreadyFormed", false) == alreadyFormed
      && FormFromSettings(p) == FormFromSettings(SettingsWithForm(prefs, f))
  {
    CheckBoxesStored(SettingsWithForm(prefs, f), mergeTwins, alreadyFormed);
  }

  lemma CheckBoxesStored(w: SettingsStore, mergeTwins: bool, alreadyFormed: bool)
    ensures var p := w["mergeTwins" := BoolText(mergeTwins)]["alreadyFormed" := BoolText(alreadyFormed)];
      && ReadBool(p, "mergeTwins", true) == mergeTwins
      && ReadBool(p, "alreadyFormed", false) == alreadyFormed
      && FormFromSettings(p) == FormFromSettings(w)
  {
    var q := w["mergeTwins" := BoolText(mergeTwins)];
    BoolSettingRoundTrip(q, "alreadyFormed", alreadyFormed, false);
    BoolSettingRoundTrip(w, "mergeTwins", mergeTwins, true);
    FormIgnoresOtherKeys(w, "mergeTwins", BoolText(mergeTwins));
    FormIgnoresOtherKeys(q, "alreadyFormed", BoolText(alreadyFormed));
  }

  /** The keys readSettings reads the form from. */
  const FormKeys: set<string> := {
    "angDir", "outputDir", "angMaxSlice", "angFilePrefix", "zStartIndex", "zEndIndex",
    "zSpacing", "minAllowedGrainSize", "crystalStructure", "gg_InputDir", "gg_OutputDir",
    "gg_NumGrains", "gg_CrystalStructure", "gg_ShapeClass", "gg_OverlapAssignment"}

  /** Storing a key the form is not read from leaves the form's read-back as it was. */
  lemma FormIgnoresOtherKeys(prefs: SettingsStore, key: string, v: string)
    requires key !in FormKeys
    ensures FormFromSettings(prefs[key := v]) == FormFromSettings(prefs)
  {
  }

  // ---------------------------------------------------------------------------
  // Dirty document, close and drag-and-drop decisions
  // ---------------------------------------------------------------------------

  /** The button the user picks in the save-changes message box. */
  datatype Answer = Save | Discard | Cancel

  /** _checkDirtyDocument: starts at -1; an unmodified window or Discard
      gives 1, Cancel gives -1, and Save (not implemented) leaves -1. */
  function CheckDirtyDocument(windowModified: bool, answer: Answer): int {
    var err := -1;
    if windowModified then
      (match answer
       case Save => err
       case Discard => 1
       case Cancel => -1)
    else 1
  }

  /** The window may close exactly when it is unmodified or the changes are
      discarded; the result is always 1 or -1. */
  lemma CheckDirtyDocumentCases(windowModified: bool, answer: Answer)
    ensures CheckDirtyDocument(windowModified, answer) >= 0 <==> !windowModified || answer == Discard
    ensures CheckDirtyDocument(windowModified, answer) in {1, -1}
  {
  }

  /** QDir(path).dirName(): the path's last component ("." for an empty
      path). QDir drops a trailing separator first, so a folder's path
      "/data/dir/" names "dir". */
  function DirName(path: string): string {
    if path == "" then "."
    else if |path| > 1 && path[|path| - 1] == '/' then FileName(path[..|path| - 1])
    else FileName(path)
  }

  /** dragEnterEvent's condition as written: each compare() is nonzero when
      the suffix differs, so the disjunction holds for every suffix. */
  predicate DragAcceptsAsWritten(exists_: bool, isFile: bool, path: string) {
    var ext := Suffix(path);
    exists_ && isFile && (Compare(ext, "mxa") != 0 || Compare(ext, "h5") != 0 || Compare(ext, "hdf5") != 0)
  }

  /** As written, every existing file is accepted, whatever its suffix. */
  lemma DragAcceptsAnyExistingFile(exists_: bool, isFile: bool, path: string)
    ensures DragAcceptsAsWritten(exists_, isFile, path) <==> exists_ && isFile
    ensures DragAcceptsAsWritten(true, true, "/data/notes.txt")
  {
  }

  /** The evidently intended rule: existing files with suffix mxa, h5 or hdf5. */
  predicate DragAccepts(exists_: bool, isFile: bool, path: string) {
    var ext := Suffix(path);
    exists_ && isFile && (Compare(ext, "mxa") == 0 || Compare(ext, "h5") == 0 || Compare(ext, "hdf5") == 0)
  }

  lemma DragAcceptsOnlyDataFiles(exists_: bool, isFile: bool, path: string)
    ensures DragAccepts(exists_, isFile, path) <==>
      exists_ && isFile && Suffix(path) in {"mxa", "h5", "hdf5"}
  {
  }

  // ---------------------------------------------------------------------------
  // Go-button parameters
  // ---------------------------------------------------------------------------

  datatype CrystalStructure = Cubic | Hexagonal | OtherStructure(code: int)

  /** The crystal-structure combo: index 0 is Cubic, 1 Hexagonal, any other
      index is cast to the enumeration unchanged. */
  function CrystalStructureOf(index: int): CrystalStructure {
    if index == 0 then Cubic else if index == 1 then Hexagonal else OtherStructure(index)
  }

  datatype ReconstructionParams = ReconstructionParams(
    inputDirectory: string, outputDirectory: string, angFilePrefix: string,
    angSeriesMaxSlice: int, zStartIndex: int, zEndIndex: int, mergeTwins: bool,
    minAllowedGrainSize: int, crystalStructure: CrystalStructure, alreadyFormed: bool)

  function ReconstructionParamsOf(f: Form, mergeTwins: bool, alreadyFormed: bool): ReconstructionParams {
    ReconstructionParams(f.angDir, f.outputDir, f.angFilePrefix, f.angMaxSlice,
                         f.zStartIndex, f.zEndIndex + 1, mergeTwins,
                         f.minAllowedGrainSize, CrystalStructureOf(f.crystalStructure), alreadyFormed)
  }

  datatype GrainGeneratorParams = GrainGeneratorParams(
    inputDirectory: string, outputDirectory: string, numGrains: int,
    shapeClass: int, overlapAssignment: int, crystalStructure: int)

  function GrainGeneratorParamsOf(f: Form): GrainGeneratorParams {
    GrainGeneratorParams(f.ggInputDir, f.ggOutputDir, f.ggNumGrains,
                         f.ggShapeClass + 1, f.ggOverlapAssignment + 1, f.ggCrystalStructure + 1)
  }

  /** The reconstruction receives an exclusive end: the slices it covers,
      [zStart, zEnd), are exactly those the window shows as [zStart, zEnd]. */
  lemma ZRangeInclusive(f: Form, mergeTwins: bool, alreadyFormed: bool, z: int)
    ensures var p := ReconstructionParamsOf(f, mergeTwins, alreadyFormed);
      p.zStartIndex <= z < p.zEndIndex <==> f.zStartIndex <= z <= f.zEndIndex
  {
  }

  /** The reconstruction receives Cubic for combo index 0 and Hexagonal for
      index 1; any other index reaches it as the index itself. */
  lemma CrystalStructureOfCombo(f: Form, mergeTwins: bool, alreadyFormed: bool)
    ensures var c := ReconstructionParamsOf(f, mergeTwins, alreadyFormed).crystalStructure;
      && (f.crystalStructure == 0 ==> c == Cubic)
      && (f.crystalStructure == 1 ==> c == Hexagonal)
      && (f.crystalStructure != 0 && f.crystalStructure != 1 ==> c == OtherStructure(f.crystalStructure))
  {
  }

  /** The grain generator's codes are 1-based: a selected index (>= 0) gives
      a code >= 1, and the index is the code minus one. */
  lemma GrainGeneratorCodesOneBased(f: Form)
    requires f.ggShapeClass >= 0 && f.ggOverlapAssignment >= 0 && f.ggCrystalStructure >= 0
    ensures var p := GrainGeneratorParamsOf(f);
      && p.shapeClass >= 1 && p.overlapAssignment >= 1 && p.crystalStructure >= 1
      && p.shapeClass - 1 == f.ggShapeClass
      && p.overlapAssignment - 1 == f.ggOverlapAssignment
      && p.crystalStructure - 1 == f.ggCrystalStructure
  {
  }

  // ---------------------------------------------------------------------------
  // The window
  // ---------------------------------------------------------------------------

  class RepresentationUI {
    /** The values of the input widgets. */
    var form: Form
    var mergeTwins: bool
    var alreadyFormed: bool
    var windowModified: bool
    var openDialogLastDirectory: string
    var prefs: SettingsStore
    var reconstructBtnText: string
    var ggGoBtnText: string
    /** The workers last started (None while none exists). */
    var reconstruction: Option<ReconstructionParams>
    var grainGenerator: Option<GrainGeneratorParams>
    /** The number of sig_CancelWorker signals emitted. */
    var cancelsEmitted: nat
    var widgetListEnabled: bool

    /** Neither worker, nor the signals sent to them, changed. */
    twostate predicate WorkersUnchanged()
      reads this
    {
      && reconstruction == old(reconstruction) && grainGenerator == old(grainGenerator)
      && cancelsEmitted == old(cancelsEmitted)
    }

    /** The window's flags, last directory and button texts did not change. */
    twostate predicate DecorUnchanged()
      reads this
    {
      && windowModified == old(windowModified) && openDialogLastDirectory == old(openDialogLastDirectory)
      && reconstructBtnText == old(reconstructBtnText) && ggGoBtnText == old(ggGoBtnText)
      && widgetListEnabled == old(widgetListEnabled)
    }

    /** The constructor: the last directory starts at "~/", the settings are
        read, rec_SetupGui unchecks alreadyFormed when the output directory
        holds no reconstructed data file, and rec_CheckIOFiles rescans the
        stored angDir when it exists. Whether the two exist, and angDir's
        listing, come from the filesystem and are given as arguments. */
    constructor (store: SettingsStore, angDirExists: bool, angDirEntries: seq<DirEntry>,
                 reconstructedDataExists: bool)
      ensures prefs == store
      ensures var stored := FormFromSettings(store);
        form == if angDirExists && |stored.angDir| != 0
                then stored.(angMaxSlice := ScanMax(angDirEntries), angFilePrefix := ScanPrefix(angDirEntries))
                else stored
      ensures reconstruction.None? && grainGenerator.None? && cancelsEmitted == 0
      ensures reconstructBtnText == "Go" && ggGoBtnText == "Go" && !windowModified
      ensures mergeTwins == ReadBool(store, "mergeTwins", true)
      ensures alreadyFormed <==> ReadBool(store, "alreadyFormed", false) && reconstructedDataExists
      ensures openDialogLastDirectory == "~/" && widgetListEnabled
    {
      prefs := store;
      form := FormFromSettings(store);
      mergeTwins := ReadBool(store, "mergeTwins", true);
      var formed := ReadBool(store, "alreadyFormed", false);
      if formed && !reconstructedDataExists {
        formed := false;
      }
      alreadyFormed := formed;
      windowModified := false;
      openDialogLastDirectory := "~/";
      reconstructBtnText, ggGoBtnText := "Go", "Go";
      reconstruction, grainGenerator := None, None;
      cancelsEmitted := 0;
      widgetListEnabled := true;
      new;
      if angDirExists {
        FindAngMaxSliceAndPrefix(angDirEntries);
      }
    }

    /** readSettings: the form and both check boxes are read from the
        settings, each with its default. */
    method ReadSettings()
      modifies this
      ensures form == FormFromSettings(prefs) && prefs == old(prefs)
      ensures mergeTwins == ReadBool(prefs, "mergeTwins", true)
      ensures alreadyFormed == ReadBool(prefs, "alreadyFormed", false)
      ensures WorkersUnchanged() && DecorUnchanged()
    {
      form := FormFromSettings(prefs);
      mergeTwins := ReadBool(prefs, "mergeTwins", true);
      alreadyFormed := ReadBool(prefs, "alreadyFormed", false);
    }

    /** writeSettings. */
    method WriteSettings()
      modifies this
      ensures prefs == SettingsWithWindow(old(prefs), form, mergeTwins, alreadyFormed) && form == old(form)
      ensures mergeTwins == old(mergeTwins) && alreadyFormed == old(alreadyFormed)
      ensures WorkersUnchanged() && DecorUnchanged()
    {
      prefs := SettingsWithWindow(prefs, form, mergeTwins, alreadyFormed);
    }

    /** closeEvent: the dirty check decides; on a negative answer the event is
        ignored and nothing is written, otherwise settings are written and
        the window closes. */
    method CloseEvent(answer: Answer) returns (accepted: bool)
      modifies this
      ensures accepted <==> CheckDirtyDocument(windowModified, answer) >= 0
      ensures prefs == if accepted then SettingsWithWindow(old(prefs), form, mergeTwins, alreadyFormed) else old(prefs)
      ensures form == old(form) && mergeTwins == old(mergeTwins) && alreadyFormed == old(alreadyFormed)
      ensures WorkersUnchanged() && DecorUnchanged()
    {
      var err := CheckDirtyDocument(windowModified, answer);
      if err < 0 {
        accepted := false;
      } else {
        prefs := SettingsWithWindow(prefs, form, mergeTwins, alreadyFormed);
        accepted := true;
      }
    }

    /** dragEnterEvent: the last path component of the first URL (QDir's
        dirName, which for a file is its own name) becomes the last
        directory, and the drop is accepted by the corrected suffix rule,
        which accepts a subset of what the condition as written accepts.
        Whether the file exists and is a file are filesystem queries, given
        as arguments. */
    method DragEnterEvent(urls: seq<string>, fileExists: bool, isFile: bool) returns (accepted: bool)
      modifies this
      ensures var file := if |urls| > 0 then urls[0] else "";
        openDialogLastDirectory == DirName(file) && accepted == DragAccepts(fileExists, isFile, file)
      ensures accepted ==> DragAcceptsAsWritten(fileExists, isFile, if |urls| > 0 then urls[0] else "")
      ensures form == old(form) && prefs == old(prefs)
      ensures mergeTwins == old(mergeTwins) && alreadyFormed == old(alreadyFormed)
      ensures windowModified == old(windowModified)
      ensures reconstructBtnText == old(reconstructBtnText) && ggGoBtnText == old(ggGoBtnText)
      ensures WorkersUnchanged() && widgetListEnabled == old(widgetListEnabled)
    {
      var file := if |urls| > 0 then urls[0] else "";
      openDialogLastDirectory := DirName(file);
      accepted := DragAccepts(fileExists, isFile, file);
    }

    /** findAngMaxSliceAndPrefix over the listing of angDir (given, as it
        comes from the filesystem): nothing happens when angDir is empty. */
    method FindAngMaxSliceAndPrefix(entries: seq<DirEntry>)
      modifies this
      ensures |old(form.angDir)| == 0 ==> form == old(form)
      ensures |old(form.angDir)| != 0 ==>
        form == old(form).(angMaxSlice := ScanMax(entries), angFilePrefix := ScanPrefix(entries))
      ensures prefs == old(prefs)
      ensures mergeTwins == old(mergeTwins) && alreadyFormed == old(alreadyFormed)
      ensures WorkersUnchanged() && DecorUnchanged()
    {
      if |form.angDir| == 0 {
        return;
      }
      var maxSlice, fPrefix := ScanListing(entries);
      form := form.(angMaxSlice := maxSlice, angFilePrefix := fPrefix);
    }

    /** on_reconstructBtn_clicked: "Cancel" only signals an existing worker;
        otherwise a reconstruction is started with the mapped parameters. */
    method ReconstructClicked()
      modifies this
      ensures form == old(form) && prefs == old(prefs)
      ensures mergeTwins == old(mergeTwins) && alreadyFormed == old(alreadyFormed)
      ensures windowModified == old(windowModified) && openDialogLastDirectory == old(openDialogLastDirectory)
      ensures grainGenerator == old(grainGenerator) && ggGoBtnText == old(ggGoBtnText)
      ensures old(reconstructBtnText) == "Cancel" ==> widgetListEnabled == old(widgetListEnabled)
      ensures old(reconstructBtnText) == "Cancel" ==>
        reconstruction == old(reconstruction) && reconstructBtnText == "Cancel"
        && cancelsEmitted == old(cancelsEmitted) + (if old(reconstruction).Some? then 1 else 0)
      ensures old(reconstructBtnText) != "Cancel" ==>
        reconstruction == Some(ReconstructionParamsOf(old(form), old(mergeTwins), old(alreadyFormed)))
        && reconstructBtnText == "Cancel" && !widgetListEnabled && cancelsEmitted == old(cancelsEmitted)
    {
      if Compare(reconstructBtnText, "Cancel") == 0 {
        if reconstruction.Some? {
          cancelsEmitted := cancelsEmitted + 1;
        }
        return;
      }
      reconstruction := Some(ReconstructionParamsOf(form, mergeTwins, alreadyFormed));
      widgetListEnabled := false;
      reconstructBtnText := "Cancel";
    }

    /** on_gg_GoBtn_clicked: the same pattern for the grain generator. */
    method GrainGeneratorGoClicked()
      modifies this
      ensures form == old(form) && prefs == old(prefs)
      ensures mergeTwins == old(mergeTwins) && alreadyFormed == old(alreadyFormed)
      ensures windowModified == old(windowModified) && openDialogLastDirectory == old(openDialogLastDirectory)
      ensures reconstruction == old(reconstruction) && reconstructBtnText == old(reconstructBtnText)
      ensures old(ggGoBtnText) == "Cancel" ==> widgetListEnabled == old(widgetListEnabled)
      ensures old(ggGoBtnText) == "Cancel" ==>
        grainGenerator == old(grainGenerator) && ggGoBtnText == "Cancel"
        && cancelsEmitted == old(cancelsEmitted) + (if old(grainGenerator).Some? then 1 else 0)
      ensures old(ggGoBtnText) != "Cancel" ==>
        grainGenerator == Some(GrainGeneratorParamsOf(old(form)))
        && ggGoBtnText == "Cancel" && !widgetListEnabled && cancelsEmitted == old(cancelsEmitted)
    {
      if Compare(ggGoBtnText, "Cancel") == 0 {
        if grainGenerator.Some? {
          cancelsEmitted := cancelsEmitted + 1;
        }
        return;
      }
      grainGenerator := Some(GrainGeneratorParamsOf(form));
      widgetListEnabled := false;
      ggGoBtnText := "Cancel";
    }
  }
}
