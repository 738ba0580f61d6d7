/** Generating a default `.config` from a Kconfig-style schema: a one-pass
    line scanner that collects `config` defaults and `choice` defaults, the
    post-pass that forces choice defaults to `y`, the CPU and RAM
    normalisation, and the rendered lines of the generated file. */
module GenDefaultConfig {
  import opened Wrappers
  import opened Strings
  import opened ConfigParser

  /** The three type tags `parse_kconfig` stores ("bool", "int", "string"). */
  datatype Kind = BoolKind | IntKind | StringKind

  /** A symbol's type tag and its default, kept as text. */
  datatype Entry = Entry(kind: Kind, value: string)

  type Table = map<string, Entry>

  // ---------------------------------------------------------------------
  // Line recognisers, one per regular expression of the scanner.

  /** `re.match(r'^\s*config\s+([A-Za-z0-9_]+)', line)`: the declared symbol. */
  function ConfigHeader(line: string): (r: Option<string>)
    ensures r.Some? ==> IsIdent(r.value)
  {
    var t := LStrip(line);
    if StartsWith(t, "config") && |t| > 6 && IsSpace(t[6]) then
      var w := LStrip(t[6..]);
      var n := IdentLen(w);
      if n > 0 then Some(w[..n]) else None
    else None
  }

  /** `re.match(r'^\s*choice\b', line)`. */
  predicate ChoiceHeader(line: string)
  {
    KeywordAt(LStrip(line), "choice")
  }

  /** `re.match(r'^(config|choice|menu|endmenu|endchoice)\b', l)`. */
  predicate IsBoundary(l: string)
  {
    KeywordAt(l, "config") || KeywordAt(l, "choice") || KeywordAt(l, "menu")
    || KeywordAt(l, "endmenu") || KeywordAt(l, "endchoice")
  }

  /** `re.match(r'^default\s+(.*)$', l)`: the text after the keyword. */
  function DefaultText(l: string): Option<string>
  {
    if StartsWith(l, "default") && |l| > 7 && IsSpace(l[7]) then Some(LStrip(l[7..])) else None
  }

  /** `re.match(r'^default\s+([A-Za-z0-9_]+)', l)`: the chosen symbol. */
  function ChoiceDefaultName(l: string): (r: Option<string>)
    ensures r.Some? ==> IsIdent(r.value)
  {
    if StartsWith(l, "default") && |l| > 7 && IsSpace(l[7]) then
      var w := LStrip(l[7..]);
      var n := IdentLen(w);
      if n > 0 then Some(w[..n]) else None
    else None
  }

  /** The default text with everything from the first `#` removed, then
      stripped. */
  function CleanDefault(text: string): (r: string)
    ensures '#' !in r
    ensures exists p, q :: Strip(text) == p + q && '#' !in p && (q == "" || q[0] == '#') && r == Strip(p)
  {
    var v := Strip(text);
    var i := IndexOf(v, '#');
    CutAt(v, '#');
    StripKeepsOut(v[..i], '#');
    Strip(v[..i])
  }

  /** The type a default gets: a double-quoted string, all digits, `y`/`n`,
      or anything else as a string with its surrounding `"`s removed. */
  function Classify(d: string): (e: Entry)
    ensures e.kind == IntKind <==> !(|d| >= 2 && d[0] == '"' && d[|d| - 1] == '"') && AllDigits(d)
    ensures e.kind == IntKind ==> e.value == d
    ensures e.kind == BoolKind <==> d == "y" || d == "n"
    ensures e.kind == BoolKind ==> e.value == d
    ensures |d| >= 2 && d[0] == '"' && d[|d| - 1] == '"' ==> e == Entry(StringKind, d[1..|d| - 1])
    ensures !(|d| >= 2 && d[0] == '"' && d[|d| - 1] == '"') && !AllDigits(d) && d != "y" && d != "n" ==>
      e == Entry(StringKind, StripChar(d, '"'))
  {
    if |d| >= 2 && d[0] == '"' && d[|d| - 1] == '"' then Entry(StringKind, d[1..|d| - 1])
    else if AllDigits(d) then
      DigitsFirst(d);
      Entry(IntKind, d)
    else if d == "y" || d == "n" then Entry(BoolKind, d)
    else Entry(StringKind, StripChar(d, '"'))
  }

  // ---------------------------------------------------------------------
  // What the scanner sees of each line.

  /** Everything the scanner's regular expressions report about one line:
      the two header tests on the right-stripped line, and the boundary,
      `default`, choice-default and `endchoice` tests on the stripped line. */
  datatype LineInfo = LineInfo(
    header: Option<string>,
    opensChoice: bool,
    boundary: bool,
    defaultText: Option<string>,
    chosen: Option<string>,
    endsChoice: bool)

  function Info(line: string): (r: LineInfo)
    ensures r.header.Some? ==> IsIdent(r.header.value)
    ensures r.chosen.Some? ==> IsIdent(r.chosen.value)
  {
    var l := Strip(line);
    LineInfo(ConfigHeader(RStrip(line)), ChoiceHeader(RStrip(line)), IsBoundary(l),
             DefaultText(l), ChoiceDefaultName(l), KeywordAt(l, "endchoice"))
  }

  /** The scanner's view of every line, in file order. */
  function Infos(lines: seq<string>): (r: seq<LineInfo>)
    ensures |r| == |lines|
  {
    if |lines| == 0 then [] else Infos(lines[..|lines| - 1]) + [Info(lines[|lines| - 1])]
  }

  lemma {:induction false} InfosAt(lines: seq<string>, k: nat)
    requires k < |lines|
    ensures Infos(lines)[k] == Info(lines[k])
    decreases |lines|
  {
    if k < |lines| - 1 {
      InfosAt(lines[..|lines| - 1], k);
    }
  }

  // ---------------------------------------------------------------------
  // The blocks the scanner recognises.

  /** A line that ends the search for a `config` block's default. */
  predicate Stops(x: LineInfo)
  {
    x.boundary || x.defaultText.Some?
  }

  /** The first index at or after `j` whose line ends a `config` block's
      search, or the number of lines when there is none. */
  function FirstStop(xs: seq<LineInfo>, j: nat): (k: nat)
    requires j <= |xs|
    ensures j <= k <= |xs|
    decreases |xs| - j
  {
    if j == |xs| then j else if Stops(xs[j]) then j else FirstStop(xs, j + 1)
  }

  /** `FirstStop` finds the first stopping line: none before it stops the
      search, and it does unless it is the end of the file. */
  lemma {:induction false} FirstStopSearch(xs: seq<LineInfo>, j: nat)
    requires j <= |xs|
    ensures var k := FirstStop(xs, j);
      (forall m :: j <= m < k ==> !Stops(xs[m])) && (k < |xs| ==> Stops(xs[k]))
    decreases |xs| - j
  {
    if j < |xs| && !Stops(xs[j]) {
      FirstStopSearch(xs, j + 1);
    }
  }

  /** The default of the `config` block whose header is line `i`: the text
      of the first `default` line before the next boundary keyword, with any
      `#` comment removed, if there is one. */
  function ConfigDefault(xs: seq<LineInfo>, i: nat): (r: Option<string>)
    requires i < |xs|
    ensures r.Some? ==> '#' !in r.value
  {
    var j := FirstStop(xs, i + 1);
    if j < |xs| && !xs[j].boundary && xs[j].defaultText.Some? then
      Some(CleanDefault(xs[j].defaultText.value))
    else None
  }

  /** The first index at or after `j` of an `endchoice` line, or the number
      of lines. */
  function ChoiceEnd(xs: seq<LineInfo>, j: nat): (k: nat)
    requires j <= |xs|
    ensures j <= k <= |xs|
    decreases |xs| - j
  {
    if j == |xs| then j else if xs[j].endsChoice then j else ChoiceEnd(xs, j + 1)
  }

  /** `ChoiceEnd` finds the first `endchoice` line at or after `j`. */
  lemma {:induction false} ChoiceEndSearch(xs: seq<LineInfo>, j: nat)
    requires j <= |xs|
    ensures var k := ChoiceEnd(xs, j);
      (forall m :: j <= m < k ==> !xs[m].endsChoice) && (k < |xs| ==> xs[k].endsChoice)
    decreases |xs| - j
  {
    if j < |xs| && !xs[j].endsChoice {
      ChoiceEndSearch(xs, j + 1);
    }
  }

  /** The symbols named by `default IDENT` lines from line `j` up to and
      including the closing `endchoice` (or the end of the file). */
  function ChosenFrom(xs: seq<LineInfo>, j: nat): set<string>
    requires j <= |xs|
    decreases |xs| - j
  {
    if j == |xs| then {}
    else if xs[j].endsChoice then Named(xs[j])
    else Named(xs[j]) + ChosenFrom(xs, j + 1)
  }

  /** The symbol a line names as a choice default, if any. */
  function Named(x: LineInfo): set<string>
  {
    match x.chosen case Some(s) => {s} case None => {}
  }

  /** A symbol is collected exactly when a `default IDENT` line names it
      between `j` and the closing `endchoice`. */
  lemma {:induction false} ChosenFromNames(xs: seq<LineInfo>, j: nat, s: string)
    requires j <= |xs|
    ensures s in ChosenFrom(xs, j) <==>
      exists m :: j <= m <= ChoiceEnd(xs, j) && m < |xs| && xs[m].chosen == Some(s)
    decreases |xs| - j
  {
    if j < |xs| && !xs[j].endsChoice {
      ChosenFromNames(xs, j + 1, s);
      if s in ChosenFrom(xs, j + 1) {
        var m :| j + 1 <= m <= ChoiceEnd(xs, j + 1) && m < |xs| && xs[m].chosen == Some(s);
        assert j <= m <= ChoiceEnd(xs, j);
      }
    }
  }

  /** Where the scanner goes after line `i`: to the line that ended a
      `config` block (that line is scanned again), past the `endchoice` of a
      `choice` block, or to the next line. */
  function Next(xs: seq<LineInfo>, i: nat): (n: nat)
    requires i < |xs|
    ensures i < n <= |xs| + 1
  {
    if xs[i].header.Some? then FirstStop(xs, i + 1)
    else if xs[i].opensChoice then ChoiceEnd(xs, i + 1) + 1
    else i + 1
  }

  /** Scanning from line `i` to the end, starting from the `config`
      defaults and choice defaults collected so far: a `config` block with a
      default stores it (replacing an earlier block's for the same symbol),
      a `choice` block adds its defaults, and every other line is passed
      over. */
  function Scan(xs: seq<LineInfo>, i: nat, configs: Table, choices: set<string>): (Table, set<string>)
    decreases |xs| - i
  {
    if i >= |xs| then (configs, choices)
    else
      match xs[i].header
      case Some(sym) =>
        var stored := match ConfigDefault(xs, i)
                      case Some(d) => configs[sym := Classify(d)]
                      case None => configs;
        Scan(xs, FirstStop(xs, i + 1), stored, choices)
      case None =>
        if xs[i].opensChoice then Scan(xs, ChoiceEnd(xs, i + 1) + 1, configs, choices + ChosenFrom(xs, i + 1))
        else Scan(xs, i + 1, configs, choices)
  }

  /** The post-pass: every choice default becomes `("bool", "y")` unless it
      is already a bool; every other entry is kept. */
  function PostPass(configs: Table, choices: set<string>): Table
  {
    map k | k in configs.Keys + choices :: if k in choices then Forced(configs, k) else configs[k]
  }

  /** The entry a choice default ends up with: its own when it already is
      a bool, `("bool", "y")` otherwise. */
  function Forced(configs: Table, k: string): (e: Entry)
    ensures e.kind == BoolKind
    ensures e == Entry(BoolKind, "y") || (k in configs && e == configs[k])
  {
    if k in configs && configs[k].kind == BoolKind then configs[k] else Entry(BoolKind, "y")
  }

  /** The post-pass is the map with these keys and entries. */
  lemma PostPassIs(configs: Table, choices: set<string>, r: Table)
    requires r.Keys == configs.Keys + choices
    requires forall k :: k in choices ==> r[k] == Forced(configs, k)
    requires forall k :: k in configs && k !in choices ==> r[k] == configs[k]
    ensures r == PostPass(configs, choices)
  {
  }

  /** The inner loop of `parse_kconfig` for a `config` header at line `i`:
      walks forward to the first boundary or `default` line and returns its
      index together with the cleaned default, if it found one. */
  method ScanConfigBlock(xs: seq<LineInfo>, i: nat) returns (j: nat, defaultVal: Option<string>)
    requires i < |xs|
    ensures j == FirstStop(xs, i + 1)
    ensures defaultVal == ConfigDefault(xs, i)
  {
    j := i + 1;
    defaultVal := None;
    while j < |xs|
      invariant i + 1 <= j <= |xs|
      invariant FirstStop(xs, j) == FirstStop(xs, i + 1)
      invariant defaultVal == None
    {
      if xs[j].boundary {
        return;
      }
      if xs[j].defaultText.Some? {
        defaultVal := Some(CleanDefault(xs[j].defaultText.value));
        return;
      }
      j := j + 1;
    }
  }

  /** The inner loop of `parse_kconfig` for a `choice` header at line `i`:
      collects every `default IDENT` up to the closing `endchoice` and
      returns that line's index. */
  method ScanChoiceBlock(xs: seq<LineInfo>, i: nat) returns (j: nat, chosen: set<string>)
    requires i < |xs|
    ensures j == ChoiceEnd(xs, i + 1)
    ensures chosen == ChosenFrom(xs, i + 1)
  {
    j := i + 1;
    chosen := {};
    while j < |xs|
      invariant i + 1 <= j <= |xs|
      invariant ChoiceEnd(xs, j) == ChoiceEnd(xs, i + 1)
      invariant chosen + ChosenFrom(xs, j) == ChosenFrom(xs, i + 1)
    {
      if xs[j].chosen.Some? {
        chosen := chosen + {xs[j].chosen.value};
      }
      if xs[j].endsChoice {
        return;
      }
      j := j + 1;
    }
  }

  /** The post-pass adds the choice defaults as keys, makes each of them a
      bool (its own when it already was one, `y` otherwise) and leaves every
      other entry alone. */
  lemma PostPassSpec(configs: Table, choices: set<string>)
    ensures var r := PostPass(configs, choices);
      && r.Keys == configs.Keys + choices
      && (forall k :: k in choices ==> r[k].kind == BoolKind)
      && (forall k :: k in choices && k in configs && configs[k].kind == BoolKind ==> r[k] == configs[k])
      && (forall k :: k in choices && (k !in configs || configs[k].kind != BoolKind) ==> r[k] == Entry(BoolKind, "y"))
      && (forall k :: k in configs && k !in choices ==> r[k] == configs[k])
  {
  }

  /** The post-pass loop of `parse_kconfig` over the choice defaults. */
  method ApplyChoiceDefaults(configs: Table, choices: set<string>) returns (result: Table)
    ensures result == PostPass(configs, choices)
  {
    result := configs;
    var pending := choices;
    while pending != {}
      invariant pending <= choices
      invariant result.Keys == configs.Keys + (choices - pending)
      invariant forall k :: k in choices && k !in pending ==> result[k] == Forced(configs, k)
      invariant forall k :: k in configs && (k !in choices || k in pending) ==> result[k] == configs[k]
      decreases pending
    {
      var sym :| sym in pending;
      if sym !in result {
        result := result[sym := Entry(BoolKind, "y")];
      } else if result[sym].kind != BoolKind {
        result := result[sym := Entry(BoolKind, "y")];
      }
      pending := pending - {sym};
    }
    PostPassIs(configs, choices, result);
  }

  /** One step of the scan at a `config` header. */
  lemma ScanConfigStep(xs: seq<LineInfo>, i: nat, configs: Table, choices: set<string>)
    requires i < |xs| && xs[i].header.Some?
    ensures Scan(xs, i, configs, choices) ==
      Scan(xs, FirstStop(xs, i + 1),
           match ConfigDefault(xs, i)
           case Some(d) => configs[xs[i].header.value := Classify(d)]
           case None => configs,
           choices)
  {
  }

  /** One step of the scan at a `choice` header. */
  lemma ScanChoiceStep(xs: seq<LineInfo>, i: nat, configs: Table, choices: set<string>)
    requires i < |xs| && xs[i].header.None? && xs[i].opensChoice
    ensures Scan(xs, i, configs, choices) ==
      Scan(xs, ChoiceEnd(xs, i + 1) + 1, configs, choices + ChosenFrom(xs, i + 1))
  {
  }

  /** One step of the scan at any other line. */
  lemma ScanOtherStep(xs: seq<LineInfo>, i: nat, configs: Table, choices: set<string>)
    requires i < |xs| && xs[i].header.None? && !xs[i].opensChoice
    ensures Scan(xs, i, configs, choices) == Scan(xs, i + 1, configs, choices)
  {
  }

  /** The `config` defaults the scan of the schema collects. */
  function SchemaDefaults(lines: seq<string>): Table
  {
    Scan(Infos(lines), 0, map[], {}).0
  }

  /** The symbols the scan of the schema collects as choice defaults. */
  function ChoiceDefaults(lines: seq<string>): set<string>
  {
    Scan(Infos(lines), 0, map[], {}).1
  }

  /** What `parse_kconfig` returns for these lines. */
  function Kconfig(lines: seq<string>): Table
  {
    PostPass(SchemaDefaults(lines), ChoiceDefaults(lines))
  }

  /** The post-pass on the schema: a choice default is a bool, `y` unless
      it was declared a bool (whatever kind it was declared with otherwise,
      an `int` say); every other symbol keeps its declared default; and the
      table holds exactly these two groups of symbols. */
  lemma ChoiceDefaultsForced(lines: seq<string>, s: string)
    ensures s in Kconfig(lines) <==> s in SchemaDefaults(lines) || s in ChoiceDefaults(lines)
    ensures s in ChoiceDefaults(lines) ==> Kconfig(lines)[s].kind == BoolKind
    ensures s in ChoiceDefaults(lines) && (s !in SchemaDefaults(lines) || SchemaDefaults(lines)[s].kind != BoolKind)
      ==> Kconfig(lines)[s] == Entry(BoolKind, "y")
    ensures s in ChoiceDefaults(lines) && s in SchemaDefaults(lines) && SchemaDefaults(lines)[s].kind == BoolKind
      ==> Kconfig(lines)[s] == SchemaDefaults(lines)[s]
    ensures s in SchemaDefaults(lines) && s !in ChoiceDefaults(lines) ==> Kconfig(lines)[s] == SchemaDefaults(lines)[s]
  {
    PostPassSpec(SchemaDefaults(lines), ChoiceDefaults(lines));
  }

  /** `parse_kconfig`: the index-driven scan, then the post-pass over the
      choice defaults. */
  method ParseKconfig(lines: seq<string>) returns (configs: Table)
    ensures configs == Kconfig(lines)
  {
    var xs := Infos(lines);
    configs := map[];
    var choiceDefaults: set<string> := {};
    var i: nat := 0;
    while i < |xs|
      invariant i <= |xs| + 1
      invariant Scan(xs, 0, map[], {}) == Scan(xs, i, configs, choiceDefaults)
      decreases |xs| - i
    {
      var x := xs[i];
      var m := x.header;
      if m.Some? {
        var sym := m.value;
        var j, defaultVal := ScanConfigBlock(xs, i);
        ScanConfigStep(xs, i, configs, choiceDefaults);
        if defaultVal.Some? {
          configs := configs[sym := Classify(defaultVal.value)];
        }
        i := j;
        continue;
      }

      if x.opensChoice {
        var j, chosen := ScanChoiceBlock(xs, i);
        ScanChoiceStep(xs, i, configs, choiceDefaults);
        choiceDefaults := choiceDefaults + chosen;
        i := j + 1;
        continue;
      }

      ScanOtherStep(xs, i, configs, choiceDefaults);
      i := i + 1;
    }
    configs := ApplyChoiceDefaults(configs, choiceDefaults);
  }

  // ---------------------------------------------------------------------
  // `validate_configs`: the CPU and RAM normalisation.

  const CpuKey := "MKQNX_CPU"
  const RamKey := "MKQNX_RAM"

  /** The CPU count is an integer in 1..4. */
  predicate CpuOk(v: string)
  {
    ParseInt(v).Some? && 1 <= ParseInt(v).value <= 4
  }

  lemma ParseIntTwo()
    ensures ParseInt("2") == Some(2)
  {
    ParseIntOfIntToString(2);
    assert IntToString(2) == "2";
  }

  /** The CPU rule: a count `int()` accepts but outside 1..4, or one it
      rejects, becomes `("int", "2")`. */
  function ValidateCpu(t: Table): (r: Table)
    ensures r.Keys == t.Keys
  {
    if CpuKey !in t then t
    else
      var v := t[CpuKey].value;
      match ParseInt(v)
      case Some(num) => if 1 <= num <= 4 then t else t[CpuKey := Entry(IntKind, "2")]
      case None => t[CpuKey := Entry(IntKind, "2")]
  }

  /** The text of the CPU warning for the value `v`. */
  function CpuWarningText(v: string): string
  {
    "Warning: MKQNX_CPU default " + v + " out of 1..4; resetting to 2"
  }

  /** The text of the RAM warning for the value `v`. */
  function RamWarningText(v: string): string
  {
    "Warning: MKQNX_RAM default '" + v + "' not in format <digits>[M|G]; resetting to '1G'"
  }

  /** The warning the CPU rule prints: only for a count that parses but is
      out of range. */
  function CpuWarning(t: Table): (w: seq<string>)
    ensures |w| <= 1
  {
    if CpuKey !in t then []
    else
      var v := t[CpuKey].value;
      match ParseInt(v)
      case Some(num) =>
        if 1 <= num <= 4 then [] else [CpuWarningText(v)]
      case None => []
  }

  /** `re.match(r'^[1-9][0-9]*$', v)`. */
  predicate PositiveDigits(v: string)
  {
    AllDigits(v) && v[0] != '0'
  }

  /** A unit letter as `[MG]` matches it under `re.IGNORECASE`. */
  predicate IsUnit(c: char)
  {
    c == 'M' || c == 'G' || c == 'm' || c == 'g'
  }

  /** `re.match(r'^[1-9][0-9]*([MG])?$', v, re.IGNORECASE)`. */
  predicate RamFormat(v: string)
  {
    PositiveDigits(v) || (|v| >= 2 && IsUnit(v[|v| - 1]) && PositiveDigits(v[..|v| - 1]))
  }

  /** The RAM rule: a malformed size becomes `("string", "1G")`, a bare
      number gets `M` appended, and a size with a unit is kept. */
  function ValidateRam(t: Table): (r: Table)
    ensures r.Keys == t.Keys
  {
    if RamKey !in t then t
    else
      var v := t[RamKey].value;
      if !RamFormat(v) then t[RamKey := Entry(StringKind, "1G")]
      else if PositiveDigits(v) then t[RamKey := Entry(StringKind, v + "M")]
      else t
  }

  /** The warning the RAM rule prints for a malformed size. */
  function RamWarning(t: Table): (w: seq<string>)
    ensures |w| <= 1
  {
    if RamKey in t && !RamFormat(t[RamKey].value) then
      [RamWarningText(t[RamKey].value)]
    else []
  }

  /** The table after `validate_configs`. */
  function Validate(t: Table): (r: Table)
    ensures r.Keys == t.Keys
  {
    ValidateRam(ValidateCpu(t))
  }

  /** The warnings `validate_configs` prints, in order. */
  function Warnings(t: Table): (w: seq<string>)
    ensures |w| <= 2
  {
    CpuWarning(t) + RamWarning(ValidateCpu(t))
  }

  /** A RAM size with its unit: positive digits and one of `M`, `G`, `m`, `g`. */
  predicate RamWithUnit(v: string)
  {
    |v| >= 2 && IsUnit(v[|v| - 1]) && PositiveDigits(v[..|v| - 1])
  }

  lemma RamWithUnitFormat(v: string)
    ensures RamWithUnit(v) ==> RamFormat(v)
    ensures RamWithUnit(v) ==> !PositiveDigits(v)
  {
    if RamWithUnit(v) {
      assert !IsDigit(v[|v| - 1]);
    }
  }

  lemma OneGig()
    ensures RamWithUnit("1G")
  {
    assert "1G"[..1] == "1" && "1"[..0] == "";
  }

  lemma {:induction false} AppendMWithUnit(v: string)
    requires PositiveDigits(v)
    ensures RamWithUnit(v + "M")
  {
    assert (v + "M")[..|v|] == v;
  }

  /** After the CPU rule the count, when present, is an integer in 1..4,
      unchanged when it already was one, and nothing else changes. */
  lemma ValidateCpuGuarantees(t: Table)
    ensures ValidateCpu(t).Keys == t.Keys
    ensures forall k :: k in t && k != CpuKey ==> ValidateCpu(t)[k] == t[k]
    ensures CpuKey in t ==> CpuOk(ValidateCpu(t)[CpuKey].value)
    ensures CpuKey in t && CpuOk(t[CpuKey].value) ==> ValidateCpu(t)[CpuKey] == t[CpuKey]
  {
    ParseIntTwo();
  }

  /** After the RAM rule the size, when present, carries a unit, unchanged
      when it already did, and nothing else changes. */
  lemma ValidateRamGuarantees(t: Table)
    ensures ValidateRam(t).Keys == t.Keys
    ensures forall k :: k in t && k != RamKey ==> ValidateRam(t)[k] == t[k]
    ensures RamKey in t ==> RamWithUnit(ValidateRam(t)[RamKey].value)
    ensures RamKey in t && RamWithUnit(t[RamKey].value) ==> ValidateRam(t)[RamKey] == t[RamKey]
  {
    if RamKey in t {
      var v := t[RamKey].value;
      RamWithUnitFormat(v);
      if !RamFormat(v) {
        OneGig();
      } else if PositiveDigits(v) {
        AppendMWithUnit(v);
      }
    }
  }

  /** After validation the CPU count and the RAM size are in range and in
      format, values that already were are kept, and nothing else changes. */
  lemma ValidateGuarantees(t: Table)
    ensures Validate(t).Keys == t.Keys
    ensures forall k :: k in t && k != CpuKey && k != RamKey ==> Validate(t)[k] == t[k]
    ensures CpuKey in t ==> CpuOk(Validate(t)[CpuKey].value)
    ensures CpuKey in t && CpuOk(t[CpuKey].value) ==> Validate(t)[CpuKey] == t[CpuKey]
    ensures RamKey in t ==> RamWithUnit(Validate(t)[RamKey].value)
    ensures RamKey in t && RamWithUnit(t[RamKey].value) ==> Validate(t)[RamKey] == t[RamKey]
  {
    ValidateCpuGuarantees(t);
    ValidateRamGuarantees(ValidateCpu(t));
  }

  /** Validating twice changes nothing more, and prints no warning the
      second time. */
  lemma ValidateIdempotent(t: Table)
    ensures Validate(Validate(t)) == Validate(t)
    ensures Warnings(Validate(t)) == []
  {
    var r := Validate(t);
    ValidateGuarantees(t);
    ValidateCpuGuarantees(r);
    ValidateRamGuarantees(ValidateCpu(r));
    if RamKey in r {
      RamWithUnitFormat(r[RamKey].value);
    }
    assert ValidateCpu(r) == r;
    assert Validate(r) == r;
  }

  /** The RAM rule leaves the CPU entry alone. */
  lemma ValidateCpuEntry(t: Table)
    requires CpuKey in t
    ensures Validate(t)[CpuKey] == ValidateCpu(t)[CpuKey]
  {
    ValidateCpuGuarantees(t);
    ValidateRamGuarantees(ValidateCpu(t));
  }

  /** A count `int()` reads as `n`: kept when `n` is in 1..4, otherwise reset
      to 2 with one warning. */
  lemma CpuParsed(t: Table, e: Entry, n: int)
    requires ParseInt(e.value) == Some(n)
    ensures 1 <= n <= 4 ==> Validate(t[CpuKey := e])[CpuKey] == e && CpuWarning(t[CpuKey := e]) == []
    ensures !(1 <= n <= 4) ==> Validate(t[CpuKey := e])[CpuKey] == Entry(IntKind, "2")
    ensures !(1 <= n <= 4) ==> CpuWarning(t[CpuKey := e]) == [CpuWarningText(e.value)]
  {
    ValidateCpuEntry(t[CpuKey := e]);
  }

  /** A count `int()` rejects is reset to 2 without a warning. */
  lemma CpuUnparsed(t: Table, e: Entry)
    requires ParseInt(e.value) == None
    ensures Validate(t[CpuKey := e])[CpuKey] == Entry(IntKind, "2")
    ensures CpuWarning(t[CpuKey := e]) == []
  {
    ValidateCpuEntry(t[CpuKey := e]);
  }

  /** `int(str(n)) == n` for the single digits the examples use. */
  lemma ParseIntDigit(n: nat)
    requires n < 10
    ensures ParseInt([DigitChar(n)]) == Some(n)
  {
    assert IntToString(n) == [DigitChar(n)];
    ParseIntOfNat(n);
  }

  /** CPU counts from the documented examples: `0` and `5` are reset with a
      warning, `abc` is reset without one, and `3` is kept. */
  lemma CpuExamples(t: Table)
    ensures Validate(t[CpuKey := Entry(IntKind, "0")])[CpuKey] == Entry(IntKind, "2")
    ensures |Warnings(t[CpuKey := Entry(IntKind, "0")])| >= 1
    ensures Validate(t[CpuKey := Entry(IntKind, "5")])[CpuKey] == Entry(IntKind, "2")
    ensures |Warnings(t[CpuKey := Entry(IntKind, "5")])| >= 1
    ensures Validate(t[CpuKey := Entry(StringKind, "abc")])[CpuKey] == Entry(IntKind, "2")
    ensures CpuWarning(t[CpuKey := Entry(StringKind, "abc")]) == []
    ensures Validate(t[CpuKey := Entry(IntKind, "3")])[CpuKey] == Entry(IntKind, "3")
    ensures CpuWarning(t[CpuKey := Entry(IntKind, "3")]) == []
  {
    ParseIntDigit(0);
    assert [DigitChar(0)] == "0";
    CpuParsed(t, Entry(IntKind, "0"), 0);
    ParseIntDigit(5);
    assert [DigitChar(5)] == "5";
    CpuParsed(t, Entry(IntKind, "5"), 5);
    ParseIntDigit(3);
    assert [DigitChar(3)] == "3";
    CpuParsed(t, Entry(IntKind, "3"), 3);
    ParseIntNonNumeric("abc");
    CpuUnparsed(t, Entry(StringKind, "abc"));
  }

  /** RAM sizes from the documented examples: `512` becomes `512M`, `2G`
      is kept, and `xyz` is reset to `1G` with a warning. */
  lemma RamExamples(t: Table)
    ensures Validate(t[RamKey := Entry(IntKind, "512")])[RamKey] == Entry(StringKind, "512M")
    ensures Validate(t[RamKey := Entry(StringKind, "2G")])[RamKey] == Entry(StringKind, "2G")
    ensures Validate(t[RamKey := Entry(StringKind, "xyz")])[RamKey] == Entry(StringKind, "1G")
    ensures |Warnings(t[RamKey := Entry(StringKind, "xyz")])| == |CpuWarning(t)| + 1
  {
    assert "512"[..2] == "51" && "51"[..1] == "5" && "5"[..0] == "";
    assert PositiveDigits("512");
    assert "2G"[..1] == "2";
    assert PositiveDigits("2") && !PositiveDigits("2G");
    assert RamFormat("2G");
    DigitsFirst("xyz");
    assert !RamFormat("xyz");
  }

  /** The table `validate_configs` mutates in place. */
  class ConfigTable {
    var entries: Table

    constructor(t: Table)
      ensures entries == t
    {
      entries := t;
    }
  }

  /** `validate_configs`: the CPU rule, then the RAM rule, on the table in
      place; returns the warnings it prints. */
  method ValidateConfigs(configs: ConfigTable) returns (warnings: seq<string>)
    modifies configs
    ensures configs.entries == Validate(old(configs.entries))
    ensures warnings == Warnings(old(configs.entries))
  {
    warnings := CheckCpu(configs);
    var ramWarnings := CheckRam(configs);
    warnings := warnings + ramWarnings;
  }

  /** The CPU half of `validate_configs`. */
  method CheckCpu(configs: ConfigTable) returns (warnings: seq<string>)
    modifies configs
    ensures configs.entries == ValidateCpu(old(configs.entries))
    ensures warnings == CpuWarning(old(configs.entries))
  {
    warnings := [];
    if CpuKey in configs.entries {
      var val := configs.entries[CpuKey].value;
      var num := ParseInt(val);
      if num.Some? {
        if !(1 <= num.value <= 4) {
          warnings := warnings + [CpuWarningText(val)];
          configs.entries := configs.entries[CpuKey := Entry(IntKind, "2")];
        }
      } else {
        configs.entries := configs.entries[CpuKey := Entry(IntKind, "2")];
      }
    }
  }

  /** The RAM half of `validate_configs`. */
  method CheckRam(configs: ConfigTable) returns (warnings: seq<string>)
    modifies configs
    ensures configs.entries == ValidateRam(old(configs.entries))
    ensures warnings == RamWarning(old(configs.entries))
  {
    warnings := [];
    if RamKey in configs.entries {
      var val := configs.entries[RamKey].value;
      if !RamFormat(val) {
        warnings := warnings + [RamWarningText(val)];
        configs.entries := configs.entries[RamKey := Entry(StringKind, "1G")];
      } else if PositiveDigits(val) {
        configs.entries := configs.entries[RamKey := Entry(StringKind, val + "M")];
      }
    }
  }

  // ---------------------------------------------------------------------
  // `write_config`: the generated file.

  /** The three lines every generated file starts with. */
  function HeaderLines(kconfPath: string): seq<string>
  {
    [Comment(" Automatically generated default .config from " + kconfPath),
     Comment(" Regenerate with scripts/gen_default_config.py"),
     ""]
  }

  /** A `#` comment line. */
  function Comment(text: string): string
  {
    "#" + text
  }

  /** The line written for one symbol: `CONFIG_<sym>=y` for a bool `y`,
      nothing for any other bool, the bare value for an int and the quoted
      value for a string. */
  function RenderEntry(sym: string, e: Entry): (r: seq<string>)
    ensures |r| <= 1
  {
    match e.kind
    case BoolKind => if e.value == "y" then ["CONFIG_" + sym + "=y"] else []
    case IntKind => ["CONFIG_" + sym + "=" + e.value]
    case StringKind => ["CONFIG_" + sym + "=\"" + e.value + "\""]
  }

  /** The lines for the symbols `ks` of the table, in that order. */
  function Body(configs: Table, ks: seq<string>): seq<string>
  {
    if |ks| == 0 then []
    else
      var k := ks[|ks| - 1];
      Body(configs, ks[..|ks| - 1]) + (if k in configs then RenderEntry(k, configs[k]) else [])
  }

  /** Strictly increasing in Python's string order. */
  predicate Sorted(ks: seq<string>)
  {
    forall i, j :: 0 <= i < j < |ks| ==> Less(ks[i], ks[j])
  }

  lemma LeastUnique(a: string, b: string, s: set<string>)
    requires IsLeast(a, s) && IsLeast(b, s)
    ensures a == b
  {
    if a != b {
      LessTransitive(a, b, a);
      LessIrreflexive(a);
    }
  }

  /** `sorted(keys)`: the keys in increasing order. */
  ghost function SortedKeys(s: set<string>): (r: seq<string>)
    ensures Sorted(r)
    ensures forall k :: k in r <==> k in s
    decreases s
  {
    if s == {} then []
    else
      LeastExists(s);
      var m :| IsLeast(m, s);
      var rest := SortedKeys(s - {m});
      assert forall k :: k in rest ==> Less(m, k);
      [m] + rest
  }

  /** The least key comes first, then the others in order. */
  lemma SortedKeysFirst(s: set<string>, m: string)
    requires IsLeast(m, s)
    ensures SortedKeys(s) == [m] + SortedKeys(s - {m})
  {
    LeastExists(s);
    var m' :| IsLeast(m', s) && SortedKeys(s) == [m'] + SortedKeys(s - {m'});
    LeastUnique(m, m', s);
  }

  /** `sorted` on the keys, as a selection of the least remaining key. */
  method SortKeys(s: set<string>) returns (ks: seq<string>)
    ensures ks == SortedKeys(s)
  {
    ks := [];
    var rest := s;
    while rest != {}
      invariant ks + SortedKeys(rest) == SortedKeys(s)
      decreases rest
    {
      LeastExists(rest);
      var m :| m in rest && IsLeast(m, rest);
      SortedKeysFirst(rest, m);
      AppendAssoc(ks, [m], SortedKeys(rest - {m}));
      ks := ks + [m];
      rest := rest - {m};
    }
    assert ks + [] == ks;
  }

  /** The lines of the generated file. */
  ghost function OutLines(kconfPath: string, configs: Table): seq<string>
  {
    HeaderLines(kconfPath) + Body(configs, SortedKeys(configs.Keys))
  }

  /** `write_config`: the header, then one line per symbol in sorted order;
      returns the text written to the output file. */
  method WriteConfig(kconfPath: string, configs: Table) returns (outText: string)
    ensures outText == JoinLines(OutLines(kconfPath, configs))
  {
    var outLines := HeaderLines(kconfPath);
    var keys := SortKeys(configs.Keys);
    for n := 0 to |keys|
      invariant outLines == HeaderLines(kconfPath) + Body(configs, keys[..n])
    {
      var sym := keys[n];
      assert sym in configs;
      var e := configs[sym];
      ghost var before := outLines;
      if e.kind == BoolKind {
        if e.value == "y" {
          outLines := outLines + ["CONFIG_" + sym + "=y"];
        }
      } else if e.kind == IntKind {
        outLines := outLines + ["CONFIG_" + sym + "=" + e.value];
      } else if e.kind == StringKind {
        outLines := outLines + ["CONFIG_" + sym + "=\"" + e.value + "\""];
      }
      assert outLines == before + RenderEntry(sym, e);
      BodySnoc(configs, keys, n);
      AppendAssoc(HeaderLines(kconfPath), Body(configs, keys[..n]), RenderEntry(sym, e));
    }
    assert keys[..|keys|] == keys;
    outText := JoinLines(outLines);
  }

  lemma BodySnoc(configs: Table, keys: seq<string>, n: nat)
    requires n < |keys| && keys[n] in configs
    ensures Body(configs, keys[..n + 1]) == Body(configs, keys[..n]) + RenderEntry(keys[n], configs[keys[n]])
  {
    assert keys[..n + 1][..n] == keys[..n];
  }

  /** `main` after its argument and file handling: parse the schema lines,
      validate, and render; returns the text written and the warnings. */
  method Generate(kconfPath: string, lines: seq<string>) returns (outText: string, warnings: seq<string>)
    ensures outText == JoinLines(OutLines(kconfPath, Validate(Kconfig(lines))))
    ensures warnings == Warnings(Kconfig(lines))
  {
    var configs := ParseKconfig(lines);
    var table := new ConfigTable(configs);
    warnings := ValidateConfigs(table);
    outText := WriteConfig(kconfPath, table.entries);
  }

  // ---------------------------------------------------------------------
  // Reading the generated file back with `parse_config`.

  /** Every symbol is an identifier and every `int` default is all digits:
      what the scanner can produce and the writer needs. */
  predicate WellFormed(c: Table)
  {
    forall k :: k in c ==> IsIdent(k) && (c[k].kind == IntKind ==> AllDigits(c[k].value))
  }

  /** What `parse_config` reads back for one entry: `y` for a bool `y`,
      nothing for any other bool, and the text of an int or a string. */
  function Decoded(e: Entry): (r: Option<Val>)
    ensures r.Some? <==> e.kind != BoolKind || e.value == "y"
  {
    match e.kind
    case BoolKind => if e.value == "y" then Some(B(true)) else None
    case IntKind => Some(S(e.value))
    case StringKind => Some(S(e.value))
  }

  /** The map `parse_config` should read from the file written for `c`. */
  function Expected(c: Table): (r: Config)
    ensures forall k :: k in r <==> k in c && Decoded(c[k]).Some?
  {
    map k | k in c && Decoded(c[k]).Some? :: Decoded(c[k]).value
  }

  /** The same, for the symbols in `ks` only. */
  function ExpectedOn(c: Table, ks: seq<string>): (r: Config)
    ensures forall k :: k in r <==> k in ks && k in c && Decoded(c[k]).Some?
  {
    map k | k in ks && k in c && Decoded(c[k]).Some? :: Decoded(c[k]).value
  }

  /** A `CONFIG_<sym>=<text>` line whose text has no surrounding whitespace
      decodes to `sym` and the decoded text. */
  lemma LineDecodes(sym: string, text: string)
    requires IsIdent(sym)
    requires |text| > 0 && !IsSpace(text[0]) && !IsSpace(text[|text| - 1])
    ensures DecodeLine("CONFIG_" + sym + "=" + text) == Some((sym, DecodeValue(text)))
  {
    var line := "CONFIG_" + sym + "=" + text;
    assert line[0] == 'C' && line[|line| - 1] == text[|text| - 1];
    StripUnspaced(line);
    MatchLineComplete(sym, text);
  }

  /** The line written for an entry decodes to that entry's symbol and its
      read-back value, and there is a line exactly when there is a value. */
  lemma RenderEntryDecodes(sym: string, e: Entry)
    requires IsIdent(sym)
    requires e.kind == IntKind ==> AllDigits(e.value)
    ensures |RenderEntry(sym, e)| == 1 <==> Decoded(e).Some?
    ensures Decoded(e).Some? ==> DecodeLine(RenderEntry(sym, e)[0]) == Some((sym, Decoded(e).value))
  {
    match e.kind
    case BoolKind =>
      if e.value == "y" {
        assert "CONFIG_" + sym + "=y" == "CONFIG_" + sym + "=" + "y";
        LineDecodes(sym, "y");
        StripUnspaced("y");
      }
    case IntKind =>
      var v := e.value;
      DigitsFirst(v);
      assert IsDigit(v[0]) && IsDigit(v[|v| - 1]);
      LineDecodes(sym, v);
      DecodePlain(v);
    case StringKind =>
      var q := "\"" + e.value + "\"";
      assert "CONFIG_" + sym + "=\"" + e.value + "\"" == "CONFIG_" + sym + "=" + q;
      assert q[0] == '"' && q[|q| - 1] == '"';
      LineDecodes(sym, q);
      DecodeQuoted('"', e.value);
  }

  /** A line starting with `#` decodes to nothing. */
  lemma CommentDecodes(line: string)
    requires |line| > 0 && line[0] == '#'
    ensures DecodeLine(line) == None
  {
    StripKeepsFirst(line);
  }

  /** The three header lines decode to nothing. */
  lemma HeaderDecodes(kconfPath: string)
    ensures Decode(HeaderLines(kconfPath)) == map[]
  {
    var h := HeaderLines(kconfPath);
    CommentDecodes(h[0]);
    CommentDecodes(h[1]);
    assert Strip(h[2]) == "";
    assert Decode([]) == map[];
    DecodeSnoc([], h[0]);
    assert [] + [h[0]] == h[..1];
    DecodeSnoc(h[..1], h[1]);
    assert h[..1] + [h[1]] == h[..2];
    DecodeSnoc(h[..2], h[2]);
    assert h[..2] + [h[2]] == h;
  }

  /** One more symbol adds its read-back value, if it has one. */
  lemma ExpectedOnSnoc(c: Table, ks: seq<string>)
    requires |ks| > 0
    ensures var k := ks[|ks| - 1];
      ExpectedOn(c, ks) == if k in c && Decoded(c[k]).Some? then ExpectedOn(c, ks[..|ks| - 1])[k := Decoded(c[k]).value]
                           else ExpectedOn(c, ks[..|ks| - 1])
  {
    var init := ks[..|ks| - 1];
    assert ks == init + [ks[|ks| - 1]];
    assert forall x :: x in ks <==> x in init || x == ks[|ks| - 1];
  }

  /** After the header, the lines for the symbols `ks` decode to the
      read-back values of those symbols. */
  lemma {:induction false} BodyDecodes(kconfPath: string, c: Table, ks: seq<string>)
    requires WellFormed(c)
    ensures Decode(HeaderLines(kconfPath) + Body(c, ks)) == ExpectedOn(c, ks)
    decreases |ks|
  {
    var h := HeaderLines(kconfPath);
    if |ks| == 0 {
      HeaderDecodes(kconfPath);
      assert h + [] == h;
    } else {
      var init := ks[..|ks| - 1];
      var k := ks[|ks| - 1];
      var r := if k in c then RenderEntry(k, c[k]) else [];
      assert Body(c, ks) == Body(c, init) + r;
      BodyDecodes(kconfPath, c, init);
      AppendAssoc(h, Body(c, init), r);
      var before := h + Body(c, init);
      ExpectedOnSnoc(c, ks);
      if k in c {
        RenderEntryDecodes(k, c[k]);
      }
      if r == [] {
        assert before + r == before;
      } else {
        DecodeSnoc(before, r[0]);
        assert before + r == before + [r[0]];
      }
    }
  }

  /** Reading back what `write_config` produces for a well-formed table
      gives every int and string, every bool that is `y`, and nothing else. */
  lemma RoundTrip(kconfPath: string, c: Table)
    requires WellFormed(c)
    ensures Decode(OutLines(kconfPath, c)) == Expected(c)
  {
    var ks := SortedKeys(c.Keys);
    BodyDecodes(kconfPath, c, ks);
    ExpectedOnAll(c, ks);
  }

  /** Over a sequence holding every symbol of the table, the read-back values
      are those of the whole table. */
  lemma ExpectedOnAll(c: Table, ks: seq<string>)
    requires forall k :: k in ks <==> k in c
    ensures ExpectedOn(c, ks) == Expected(c)
  {
    var a, b := ExpectedOn(c, ks), Expected(c);
    assert a.Keys == b.Keys;
    assert forall k :: k in a ==> a[k] == b[k];
  }

  // ---------------------------------------------------------------------
  // What the scanner and the validator produce is well formed.

  /** Every header and every choice default the scanner sees is an
      identifier, as `Info` guarantees. */
  predicate InfoLike(xs: seq<LineInfo>)
  {
    forall m :: 0 <= m < |xs| ==>
      (xs[m].header.Some? ==> IsIdent(xs[m].header.value)) && (xs[m].chosen.Some? ==> IsIdent(xs[m].chosen.value))
  }

  /** Every member of the set is an identifier. */
  predicate Idents(s: set<string>)
  {
    forall x :: x in s ==> IsIdent(x)
  }

  lemma InfosLike(lines: seq<string>)
    ensures InfoLike(Infos(lines))
  {
    forall m | 0 <= m < |lines|
      ensures Infos(lines)[m] == Info(lines[m])
    {
      InfosAt(lines, m);
    }
  }

  lemma {:induction false} ChosenIdents(xs: seq<LineInfo>, j: nat)
    requires j <= |xs| && InfoLike(xs)
    ensures Idents(ChosenFrom(xs, j))
    decreases |xs| - j
  {
    if j < |xs| && !xs[j].endsChoice {
      ChosenIdents(xs, j + 1);
    }
  }

  /** A default the classifier tags `int` is all digits. */
  lemma ClassifyWellFormed(sym: string, d: string, configs: Table)
    requires WellFormed(configs) && IsIdent(sym)
    ensures WellFormed(configs[sym := Classify(d)])
  {
  }

  /** The scan keeps the table well formed and collects only identifiers. */
  lemma {:induction false} ScanWellFormed(xs: seq<LineInfo>, i: nat, configs: Table, choices: set<string>)
    requires InfoLike(xs) && WellFormed(configs) && Idents(choices)
    ensures WellFormed(Scan(xs, i, configs, choices).0) && Idents(Scan(xs, i, configs, choices).1)
    decreases |xs| - i
  {
    if i < |xs| {
      if xs[i].header.Some? {
        var sym := xs[i].header.value;
        ScanConfigStep(xs, i, configs, choices);
        match ConfigDefault(xs, i)
        case Some(d) =>
          ClassifyWellFormed(sym, d, configs);
          ScanWellFormed(xs, FirstStop(xs, i + 1), configs[sym := Classify(d)], choices);
        case None =>
          ScanWellFormed(xs, FirstStop(xs, i + 1), configs, choices);
      } else if xs[i].opensChoice {
        ScanChoiceStep(xs, i, configs, choices);
        ChosenIdents(xs, i + 1);
        ScanWellFormed(xs, ChoiceEnd(xs, i + 1) + 1, configs, choices + ChosenFrom(xs, i + 1));
      } else {
        ScanOtherStep(xs, i, configs, choices);
        ScanWellFormed(xs, i + 1, configs, choices);
      }
    }
  }

  lemma PostPassWellFormed(configs: Table, choices: set<string>)
    requires WellFormed(configs) && Idents(choices)
    ensures WellFormed(PostPass(configs, choices))
  {
    PostPassSpec(configs, choices);
  }

  /** The schema's table is well formed. */
  lemma KconfigWellFormed(lines: seq<string>)
    ensures WellFormed(Kconfig(lines))
  {
    InfosLike(lines);
    ScanWellFormed(Infos(lines), 0, map[], {});
    PostPassWellFormed(SchemaDefaults(lines), ChoiceDefaults(lines));
  }

  /** The CPU rule keeps a table well formed: its reset value `2` is all
      digits. */
  lemma ValidateCpuWellFormed(t: Table)
    requires WellFormed(t)
    ensures WellFormed(ValidateCpu(t))
  {
    assert "2"[..0] == "" && AllDigits("2");
    var r := ValidateCpu(t);
    forall k | k in r
      ensures IsIdent(k) && (r[k].kind == IntKind ==> AllDigits(r[k].value))
    {
      if k != CpuKey {
        assert r[k] == t[k];
      }
    }
  }

  /** The RAM rule keeps a table well formed: it only writes strings. */
  lemma ValidateRamWellFormed(t: Table)
    requires WellFormed(t)
    ensures WellFormed(ValidateRam(t))
  {
    var r := ValidateRam(t);
    forall k | k in r
      ensures IsIdent(k) && (r[k].kind == IntKind ==> AllDigits(r[k].value))
    {
      if k != RamKey {
        assert r[k] == t[k];
      }
    }
  }

  lemma ValidateWellFormed(t: Table)
    requires WellFormed(t)
    ensures WellFormed(Validate(t))
  {
    ValidateCpuWellFormed(t);
    ValidateRamWellFormed(ValidateCpu(t));
  }

  /** The generated file read back with `parse_config` gives exactly the
      read-back values of the validated schema defaults: every int and
      string, every bool that is `y`, nothing else. */
  lemma GenerateRoundTrip(kconfPath: string, lines: seq<string>)
    ensures Decode(OutLines(kconfPath, Validate(Kconfig(lines)))) == Expected(Validate(Kconfig(lines)))
  {
    KconfigWellFormed(lines);
    ValidateWellFormed(Kconfig(lines));
    RoundTrip(kconfPath, Validate(Kconfig(lines)));
  }

  // ---------------------------------------------------------------------
  // The generated file as text: `"\n".join(out_lines) + "\n"` written, and
  // read back by `parse_config` through `splitlines()`.

  /** No value of the table holds a line boundary. */
  predicate Unbroken(c: Table)
  {
    forall k :: k in c ==> NoLineBreak(c[k].value)
  }

  /** No `default` text the scanner sees holds a line boundary. */
  predicate DefaultsUnbroken(xs: seq<LineInfo>)
  {
    forall m :: 0 <= m < |xs| && xs[m].defaultText.Some? ==> NoLineBreak(xs[m].defaultText.value)
  }

  /** Lines without boundaries give `default` texts without them. */
  lemma InfosUnbroken(lines: seq<string>)
    requires LinesUnbroken(lines)
    ensures DefaultsUnbroken(Infos(lines))
  {
    forall m | 0 <= m < |lines| && Infos(lines)[m].defaultText.Some?
      ensures NoLineBreak(Infos(lines)[m].defaultText.value)
    {
      InfosAt(lines, m);
      InfoUnbroken(lines[m]);
    }
  }

  lemma InfoUnbroken(line: string)
    requires NoLineBreak(line)
    ensures Info(line).defaultText.Some? ==> NoLineBreak(Info(line).defaultText.value)
  {
    var l := Strip(line);
    NoLineBreakStrip(line);
    if DefaultText(l).Some? {
      NoLineBreakSlice(l, 7, |l|);
      assert l[7..] == l[7..|l|];
      NoLineBreakStrip(l[7..]);
    }
  }

  /** Cleaning and classifying a default adds no line boundary. */
  lemma ClassifyUnbroken(text: string)
    requires NoLineBreak(text)
    ensures NoLineBreak(Classify(CleanDefault(text)).value)
  {
    CleanDefaultUnbroken(text);
    EntryUnbroken(CleanDefault(text));
  }

  lemma CleanDefaultUnbroken(text: string)
    requires NoLineBreak(text)
    ensures NoLineBreak(CleanDefault(text))
  {
    var v := Strip(text);
    NoLineBreakStrip(text);
    var cut := v[..IndexOf(v, '#')];
    NoLineBreakSlice(v, 0, IndexOf(v, '#'));
    assert cut == v[0..IndexOf(v, '#')];
    NoLineBreakStrip(cut);
  }

  lemma EntryUnbroken(d: string)
    requires NoLineBreak(d)
    ensures NoLineBreak(Classify(d).value)
  {
    if |d| >= 2 && d[0] == '"' && d[|d| - 1] == '"' {
      NoLineBreakSlice(d, 1, |d| - 1);
    } else if !AllDigits(d) && d != "y" && d != "n" {
      var r := StripChar(d, '"');
      var i, j :| (0 <= i <= j <= |d| && r == d[i..j]
                   && (forall k :: 0 <= k < i ==> d[k] == '"') && (forall k :: j <= k < |d| ==> d[k] == '"'));
      NoLineBreakSlice(d, i, j);
    }
  }

  /** The scan stores no value with a line boundary. */
  lemma {:induction false} ScanUnbroken(xs: seq<LineInfo>, i: nat, configs: Table, choices: set<string>)
    requires DefaultsUnbroken(xs) && Unbroken(configs)
    ensures Unbroken(Scan(xs, i, configs, choices).0)
    decreases |xs| - i
  {
    if i < |xs| {
      if xs[i].header.Some? {
        var sym := xs[i].header.value;
        ScanConfigStep(xs, i, configs, choices);
        match ConfigDefault(xs, i)
        case Some(d) =>
          ConfigDefaultUnbroken(xs, i);
          StoreUnbroken(configs, sym, Classify(d));
          ScanUnbroken(xs, FirstStop(xs, i + 1), configs[sym := Classify(d)], choices);
        case None =>
          ScanUnbroken(xs, FirstStop(xs, i + 1), configs, choices);
      } else if xs[i].opensChoice {
        ScanChoiceStep(xs, i, configs, choices);
        ScanUnbroken(xs, ChoiceEnd(xs, i + 1) + 1, configs, choices + ChosenFrom(xs, i + 1));
      } else {
        ScanOtherStep(xs, i, configs, choices);
        ScanUnbroken(xs, i + 1, configs, choices);
      }
    }
  }

  lemma ConfigDefaultUnbroken(xs: seq<LineInfo>, i: nat)
    requires DefaultsUnbroken(xs) && i < |xs|
    ensures ConfigDefault(xs, i).Some? ==> NoLineBreak(Classify(ConfigDefault(xs, i).value).value)
  {
    var j := FirstStop(xs, i + 1);
    if ConfigDefault(xs, i).Some? {
      ClassifyUnbroken(xs[j].defaultText.value);
    }
  }

  lemma StoreUnbroken(configs: Table, sym: string, e: Entry)
    requires Unbroken(configs) && NoLineBreak(e.value)
    ensures Unbroken(configs[sym := e])
  {
  }

  /** Validation writes only `2`, `1G` and a size with `M` appended. */
  lemma ValidateUnbroken(t: Table)
    requires Unbroken(t)
    ensures Unbroken(Validate(t))
  {
    var c := ValidateCpu(t);
    assert NoLineBreak("2");
    assert Unbroken(c) by {
      forall k | k in c
        ensures NoLineBreak(c[k].value)
      {
        if k != CpuKey {
          assert c[k] == t[k];
        }
      }
    }
    var r := ValidateRam(c);
    assert NoLineBreak("1G") && NoLineBreak("M");
    forall k | k in r
      ensures NoLineBreak(r[k].value)
    {
      if k != RamKey {
        assert r[k] == c[k];
      } else if RamFormat(c[k].value) && PositiveDigits(c[k].value) {
        NoLineBreakConcat(c[k].value, "M");
      }
    }
  }

  /** The schema's table, validated, holds no value with a line boundary. */
  lemma KconfigUnbroken(lines: seq<string>)
    requires LinesUnbroken(lines)
    ensures Unbroken(Validate(Kconfig(lines)))
  {
    InfosUnbroken(lines);
    ScanUnbroken(Infos(lines), 0, map[], {});
    var c, ch := SchemaDefaults(lines), ChoiceDefaults(lines);
    PostPassSpec(c, ch);
    var p := PostPass(c, ch);
    assert NoLineBreak("y");
    assert Unbroken(p) by {
      forall k | k in p
        ensures NoLineBreak(p[k].value)
      {
      }
    }
    ValidateUnbroken(p);
  }

  /** A rendered entry holds no line boundary. */
  lemma RenderEntryUnbroken(sym: string, e: Entry)
    requires IsIdent(sym) && NoLineBreak(e.value)
    ensures LinesUnbroken(RenderEntry(sym, e))
  {
    IdentNoLineBreak(sym);
    assert NoLineBreak("CONFIG_") && NoLineBreak("=") && NoLineBreak("=y") && NoLineBreak("=\"") && NoLineBreak("\"");
    NoLineBreakConcat("CONFIG_", sym);
    match e.kind
    case BoolKind =>
      NoLineBreakConcat("CONFIG_" + sym, "=y");
    case IntKind =>
      NoLineBreakConcat("CONFIG_" + sym, "=");
      NoLineBreakConcat("CONFIG_" + sym + "=", e.value);
    case StringKind =>
      NoLineBreakConcat("CONFIG_" + sym, "=\"");
      NoLineBreakConcat("CONFIG_" + sym + "=\"", e.value);
      NoLineBreakConcat("CONFIG_" + sym + "=\"" + e.value, "\"");
  }

  lemma {:induction false} BodyUnbroken(c: Table, ks: seq<string>)
    requires WellFormed(c) && Unbroken(c)
    ensures LinesUnbroken(Body(c, ks))
    decreases |ks|
  {
    if |ks| > 0 {
      var k := ks[|ks| - 1];
      BodyUnbroken(c, ks[..|ks| - 1]);
      if k in c {
        RenderEntryUnbroken(k, c[k]);
        LinesUnbrokenConcat(Body(c, ks[..|ks| - 1]), RenderEntry(k, c[k]));
      } else {
        LinesUnbrokenConcat(Body(c, ks[..|ks| - 1]), []);
      }
    }
  }

  /** The generated lines hold no line boundary when the schema path holds
      none. */
  lemma OutLinesUnbroken(kconfPath: string, c: Table)
    requires NoLineBreak(kconfPath) && WellFormed(c) && Unbroken(c)
    ensures LinesUnbroken(OutLines(kconfPath, c))
  {
    HeaderUnbroken(kconfPath);
    BodyUnbroken(c, SortedKeys(c.Keys));
    LinesUnbrokenConcat(HeaderLines(kconfPath), Body(c, SortedKeys(c.Keys)));
  }

  lemma HeaderUnbroken(kconfPath: string)
    requires NoLineBreak(kconfPath)
    ensures LinesUnbroken(HeaderLines(kconfPath))
  {
    var first := " Automatically generated default .config from ";
    var second := " Regenerate with scripts/gen_default_config.py";
    FirstHeaderUnbroken();
    SecondHeaderUnbroken();
    NoLineBreakConcat(first, kconfPath);
    NoLineBreakConcat("#", first + kconfPath);
    NoLineBreakConcat("#", second);
    assert NoLineBreak("");
  }

  /** `main` end to end: the schema text is split into lines, parsed,
      validated and written as text; `parse_config` splits that text into
      lines again and reads back exactly the read-back values of the
      validated schema defaults. */
  lemma GenerateFileRoundTrip(kconfPath: string, schema: string)
    requires NoLineBreak(kconfPath)
    ensures var c := Validate(Kconfig(SplitLines(schema)));
      Decode(SplitLines(JoinLines(OutLines(kconfPath, c)))) == Expected(c)
  {
    var lines := SplitLines(schema);
    var c := Validate(Kconfig(lines));
    KconfigUnbroken(lines);
    KconfigWellFormed(lines);
    ValidateWellFormed(Kconfig(lines));
    OutLinesUnbroken(kconfPath, c);
    SplitLinesOfJoin(OutLines(kconfPath, c));
    GenerateRoundTrip(kconfPath, lines);
  }

  // Proof steps for the verifier, modelling nothing of the source: the two
  // fixed header texts hold no line boundary, shown a few words at a time so
  // that each literal stays small, and a fact about concatenation.

  lemma FirstHeaderUnbroken()
    ensures NoLineBreak(" Automatically generated default .config from ")
  {
    FirstHeaderWords();
    NoLineBreakConcat(" Automatically ", "generated ");
    FirstHeaderJoin();
    NoLineBreakConcat(" Automatically generated ", "default .config from ");
    FirstHeaderRest();
  }

  lemma FirstHeaderWords()
    ensures NoLineBreak(" Automatically ") && NoLineBreak("generated ")
  {
  }

  lemma FirstHeaderJoin()
    ensures NoLineBreak("default .config from ")
    ensures " Automatically " + "generated " == " Automatically generated "
  {
  }

  lemma FirstHeaderRest()
    ensures " Automatically generated " + "default .config from " == " Automatically generated default .config from "
  {
  }

  lemma SecondHeaderUnbroken()
    ensures NoLineBreak(" Regenerate with scripts/gen_default_config.py")
  {
    SecondHeaderWords();
    NoLineBreakConcat(" Regenerate ", "with scripts/");
    SecondHeaderJoin();
    NoLineBreakConcat(" Regenerate with scripts/", "gen_default_config.py");
    SecondHeaderRest();
  }

  lemma SecondHeaderWords()
    ensures NoLineBreak(" Regenerate ") && NoLineBreak("with scripts/")
  {
  }

  lemma SecondHeaderJoin()
    ensures NoLineBreak("gen_default_config.py")
    ensures " Regenerate " + "with scripts/" == " Regenerate with scripts/"
  {
  }

  lemma SecondHeaderRest()
    ensures " Regenerate with scripts/" + "gen_default_config.py" == " Regenerate with scripts/gen_default_config.py"
  {
  }

  lemma AppendAssoc(a: seq<string>, b: seq<string>, c: seq<string>)
    ensures (a + b) + c == a + (b + c)
  {
  }
}
