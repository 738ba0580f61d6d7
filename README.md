# qnx-vm-builder: configuration core in Dafny

qnx-vm-builder drives QNX's `mkqnximage` from a Kconfig-style menu. Its
Python scripts pass a flat `.config` file of `CONFIG_<NAME>=<value>` lines
from one script to the next. This project models the four scripts that
handle that file and proves properties of the model:

- `config_parser.py` (module `ConfigParser`). It decodes the file into a
  sparse map of booleans and strings. It also provides the three typed
  accessors `bool_of`, `str_of` and `int_of`.
- `gen_default_config.py` (module `GenDefaultConfig`). It scans a schema
  line by line and collects the `config` defaults and the `choice`
  defaults. It then forces the choice defaults to `y` and normalises the
  CPU count and RAM size. Finally it writes the default `.config`.
- `build_mkqnximage.py`, `main` from the first `cmd` entry to the last
  append (module `BuildMkqnximage`). It translates the decoded map into
  the `mkqnximage` argument vector.
- `edit_users.py` (module `EditUsers`). This is the `MKQNX_USERS` editor:
  - the `user/password:user:...` codec;
  - the four list edits add, edit, delete and move, on a `UserList` class
    whose `entries` field the edits reassign;
  - the save that patches the users line back into the file.

Module `Strings` models the Python `str` behaviour the scripts rely on:
- `strip`, with `str.isspace` whitespace;
- `split` and `join`;
- `lower` and `replace`;
- `int()` and `str(int)`;
- the code-point order that `sorted` uses.

Module `Wrappers` holds `Option` and `Result`.

Each script's loops are Dafny methods: `ParseConfig`, `ParseKconfig`,
`ApplyChoiceDefaults`, `SortKeys`, `WriteConfig`, the `Emit*` methods,
`RenderUsers`, `ParseUsers`, `SaveUsers` and the `UserList` methods. Each
method is proved equal to a specification function. The lemmas are then
about those functions:
- the generated file, written as text and split into lines again, reads
  back as the validated defaults;
- the users string round-trips through the codec;
- what is saved, written as text and split into lines again, is what the
  editor loads on its next start, for entries without a line boundary;
- validation is idempotent and keeps everything it does not fix;
- every command-line option is emitted exactly when its rule says.

The file system, prompts, the password prompt and the subprocess call are
replaced by values:
- the text of a file in, or none for a missing file, and text out;
- the answers the user would type;
- the argument vector.

Notes on what the scripts do, where it is easy to expect otherwise:
- The docstring of `edit_users.py` says it saves the result to
  `CONFIG_MKQNX_USERS="..."`. The save replaces every line that matches
  `^\s*CONFIG_MKQNX_USERS=`, not only the first, and appends the line when
  none matches.
- `--part-sizes` is emitted whenever the value is not `full`, even when it
  is empty. The other valued fields are also checked for being non-empty.
- The docstring of `gen_default_config.py` says `MKQNX_CPU` must be 1..4.
  In `validate_configs`, a CPU default that `int()` rejects is reset to 2
  without a warning. Only an out-of-range integer warns.
- The same docstring says a `choice` block's `default SYMBOL` is written as
  `SYMBOL=y`. The scan collects every `default IDENT` line up to the
  block's `endchoice`, not only the first one.
- `write_config` writes empty strings as `CONFIG_X=""`. They read back as
  empty strings and are not dropped.
- A value that is a single `"` or `'` decodes to the empty string, because
  it both starts and ends with the quote.
- Text is split into lines by `str.splitlines()`, which ends a line at
  `\n`, `\r`, `\r\n`, `\v`, `\f`, `\x1c`-`\x1e`, `\x85`, `\u2028` and
  `\u2029`. A user name or password holding one of these would be split
  across two lines when the saved file is read again.

## Model

| member | source | states |
|---|---|---|
| `ConfigParser.MatchLine` | scripts/config_parser.py:11-15 | a match gives an identifier name and a text that rebuild the line as `CONFIG_` + name + `=` + text |
| `ConfigParser.MatchLineComplete` | scripts/config_parser.py:11-14 | every line `CONFIG_<ident>=<text>` matches and is split at the end of the name, so a value may itself contain `=` |
| `ConfigParser.IdentLenOfIdent` | scripts/config_parser.py:11 | the name group `[A-Za-z0-9_]+` takes all of an identifier that a non-identifier character follows |
| `ConfigParser.IsQuoted` | scripts/config_parser.py:21 | the quote test: the stripped value starts and ends with `"`, or starts and ends with `'` |
| `ConfigParser.DecodeValue` | scripts/config_parser.py:15-24 | a boolean exactly when the stripped value is `y` or `n`, and true exactly for `y`; a quoted value of two or more characters is its quote, the result and the same quote again; a lone quote gives the empty string; any other value is the stripped text |
| `ConfigParser.DecodePlain` | scripts/config_parser.py:23-24 | unquoted text with no surrounding whitespace, not starting with `y`/`n`, decodes to itself |
| `ConfigParser.DecodeQuoted` | scripts/config_parser.py:21-22 | a text between two `"` or between two `'` decodes to that text |
| `ConfigParser.DecodeLoneQuote` | scripts/config_parser.py:21-22 | a value that is a single `"` or `'` decodes to the empty string |
| `ConfigParser.DecodeStrippedQuoted` | scripts/config_parser.py:21-22 | a quoted value with no surrounding whitespace, of two or more characters, decodes to what lies between its first and last character |
| `ConfigParser.DecodeLine` | scripts/config_parser.py:8-15 | a line gives an entry exactly when, stripped, it is non-empty, not a `#` comment, and of the `CONFIG_` shape; the key is an identifier |
| `ConfigParser.Entries` | scripts/config_parser.py:7-24 | one entry per line, in order, each the decoding of its own line |
| `ConfigParser.EntriesSnoc` | scripts/config_parser.py:7-24 | one more line adds its own entry at the end |
| `ConfigParser.EntriesAppend` | scripts/config_parser.py:7-24 | the entries of two blocks of lines are those of the first followed by those of the second |
| `ConfigParser.Decode` | scripts/config_parser.py:4-25 | `parse_config` on the lines of the file: the entries stored in line order into an empty map (`DecodeKeys` and `DecodeLastWins` state the result) |
| `ConfigParser.Collect` | scripts/config_parser.py:17-24 | the `cfg[key] = ...` stores in order, a later store of a key replacing an earlier one (`CollectKeys` and `CollectLastWins` state the result) |
| `ConfigParser.CollectSnoc` | scripts/config_parser.py:7-24 | storing one more entry sets its key; a skipped line changes nothing |
| `ConfigParser.CollectKeys` | scripts/config_parser.py:6-25 | a key is in the map exactly when some entry stores it |
| `ConfigParser.CollectLastWins` | scripts/config_parser.py:6-25 | a key in the map holds the value of the last entry that stores it |
| `ConfigParser.DecodeSnoc` | scripts/config_parser.py:7-24 | one more line stores what it decodes to and leaves the map alone otherwise |
| `ConfigParser.DecodeStep` | scripts/config_parser.py:7-24 | the map after line i is the map before it updated by line i's entry |
| `ConfigParser.ParseConfig` | scripts/config_parser.py:4-25 | the loop returns the decoded map of the lines |
| `ConfigParser.DecodeKeys` | scripts/config_parser.py:6-25 | a key is present exactly when some line defines it |
| `ConfigParser.DecodeLastWins` | scripts/config_parser.py:6-25 | a present key holds the value of the last line that defines it |
| `ConfigParser.BoolOf` | scripts/config_parser.py:27-29 | false when absent; otherwise Python truthiness: false only for `n` and for the empty string |
| `ConfigParser.StrOf` | scripts/config_parser.py:31-36 | the fallback when absent, the text when it is a string, `True`/`False` when it is a boolean |
| `ConfigParser.ParseIntRejectsBool` | scripts/config_parser.py:38-40 | `int()` raises on `True` and `False` |
| `ConfigParser.IntOf` | scripts/config_parser.py:38-40 | the fallback when absent; a failure naming the key for a boolean; otherwise success exactly when `int()` accepts the text, with its value |
| `Strings.ParseIntOfIntToString` | scripts/config_parser.py:40 | `int(str(n)) == n` for every integer, so the fallback of `int_of` always parses |
| `Strings.IsSpace` | scripts/config_parser.py:8 | the whitespace `str.strip()` removes: the ASCII tab to carriage return, the separators `\x1c`-`\x1f`, space and the Unicode spaces of `str.isspace` |
| `Strings.LStrip` | scripts/config_parser.py:8 | a suffix of the text that does not start with whitespace |
| `Strings.RStrip` | scripts/gen_default_config.py:19 | a prefix of the text that does not end with whitespace |
| `Strings.Strip` | scripts/config_parser.py:8 | `str.strip()`: the text right-stripped after it is left-stripped |
| `Strings.StripUnspaced` | scripts/config_parser.py:8 | a text with no whitespace at either end is its own strip |
| `Strings.RStripKeepsFirst` | scripts/gen_default_config.py:19 | right-stripping a text that does not start with whitespace keeps its first character |
| `Strings.StripKeepsFirst` | scripts/config_parser.py:8 | stripping a text that does not start with whitespace keeps its first character |
| `Strings.DigitsFirst` | scripts/gen_default_config.py:38 | an all-digit text starts with a digit |
| `Strings.IdentLen` | scripts/config_parser.py:11 | the longest run of identifier characters at the start: all of it identifier characters, and the next character not one |
| `Strings.ParseInt` | scripts/config_parser.py:40 | `int()` of a text: its value, or none when `int()` raises (`ParseIntOfNat`, `ParseIntOfNegative`, `ParseIntMinus` and `ParseIntNonNumeric` state it) |
| `Strings.ParseIntOfNat` | scripts/config_parser.py:40 | `int(str(n)) == n` for every `n >= 0` |
| `Strings.ParseIntOfNegative` | scripts/config_parser.py:40 | `int(str(n)) == n` for every `n < 0` |
| `Strings.ParseIntMinus` | scripts/gen_default_config.py:78 | `int()` of `-` followed by digits is the negated value of the digits |
| `Strings.ParseIntNonNumeric` | scripts/gen_default_config.py:78-83 | `int()` rejects a text that starts with neither a digit nor a sign |
| `Strings.IntToString` | scripts/config_parser.py:40 | `str(n)` is non-empty and has no whitespace at either end |
| `Strings.DigitChar` | scripts/build_mkqnximage.py:67 | the character of a decimal digit, whose value is that digit |
| `Strings.IndexOf` | scripts/edit_users.py:60-61 | the position of the first occurrence, or the length exactly when there is none |
| `Strings.KeywordAt` | scripts/gen_default_config.py:27 | `re.match(r'^kw\b', s)`: the text starts with the keyword and no word character follows it; the same test serves lines 47 and 56 |
| `Strings.IndexOfAfter` | scripts/edit_users.py:60-61 | the first separator after a separator-free prefix is at the end of the prefix |
| `Strings.CutAt` | scripts/gen_default_config.py:32 | cutting a text at its first `c` gives a part without `c`, then a rest that is empty or starts with `c`, which rebuild the text |
| `Strings.StripKeepsOut` | scripts/gen_default_config.py:32 | stripping a text without `c` gives a text without `c` |
| `Strings.Join` | scripts/edit_users.py:48 | `c.join(parts)`: the parts with the separator between each two |
| `Strings.Split` | scripts/edit_users.py:57 | at least one piece, and no piece holds the separator |
| `Strings.SplitJoin` | scripts/edit_users.py:48-57 | splitting joined pieces that do not hold the separator gives them back |
| `Strings.JoinSplit` | scripts/edit_users.py:48-57 | joining the pieces of a split gives the text back |
| `Strings.NatToString` | scripts/build_mkqnximage.py:66-67 | `str(n)` is all digits with no leading zero |
| `Strings.NatToStringValue` | scripts/build_mkqnximage.py:66-67 | the digits of `str(n)` denote `n` |
| `Strings.StripChar` | scripts/gen_default_config.py:43 | `strip('"')` is a slice of the text with only `"` before it and only `"` after it, and it has no `"` at either end |
| `Strings.TrimmedFront` | scripts/gen_default_config.py:43 | when the text starts with the stripped character, a slice of the rest with only that character outside it is such a slice of the whole text |
| `Strings.TrimmedBack` | scripts/gen_default_config.py:43 | the same when the text ends with the stripped character |
| `Strings.TrimmedNothing` | scripts/gen_default_config.py:43 | the whole text is such a slice of itself |
| `Strings.Lower` | scripts/edit_users.py:152 | same length, each character lowered |
| `Strings.ReplaceChar` | scripts/build_mkqnximage.py:89 | same length, each `_` turned into `-` and every other character kept |
| `Strings.LessIrreflexive` | scripts/gen_default_config.py:100 | `sorted`'s order is irreflexive |
| `Strings.LessTransitive` | scripts/gen_default_config.py:100 | `sorted`'s order is transitive |
| `Strings.LessTotal` | scripts/gen_default_config.py:100 | `sorted`'s order is total on distinct strings |
| `Strings.LeastExists` | scripts/gen_default_config.py:100 | every non-empty key set has a least key |
| `Strings.Less` | scripts/gen_default_config.py:100 | the code-point order of `sorted` on strings (`LessIrreflexive`, `LessTransitive` and `LessTotal` state it) |
| `Strings.IsLineBreak` | scripts/config_parser.py:7 | the characters at which `str.splitlines()` ends a line |
| `Strings.BreakIndex` | scripts/config_parser.py:7 | the position of the first line boundary, or the length exactly when there is none |
| `Strings.BreakIndexAfter` | scripts/config_parser.py:7 | after a text without boundaries, the first boundary is the character that follows it |
| `Strings.SplitLines` | scripts/config_parser.py:7 | `str.splitlines()`: no line holds a boundary (`SplitLinesOfJoin` states what it gives back) |
| `Strings.JoinLines` | scripts/edit_users.py:30 | `"\n".join(lines) + "\n"`, the text a list of lines is written as |
| `Strings.JoinedText` | scripts/edit_users.py:30 | the text written is the first line, a newline, and the text written for the rest |
| `Strings.SplitLinesCons` | scripts/config_parser.py:7 | a line without boundaries followed by `\n` is split off as the first line |
| `Strings.SplitLinesOfJoin` | scripts/edit_users.py:26-30 | splitting the text written for a non-empty list of lines without boundaries gives back exactly those lines |
| `Strings.NoLineBreakJoin` | scripts/edit_users.py:48 | joining parts without boundaries by a separator that is not one gives a text without boundaries |
| `Strings.NoLineBreakConcat` | scripts/edit_users.py:170 | two texts without boundaries concatenate to a text without boundaries |
| `Strings.NoLineBreakSlice` | scripts/gen_default_config.py:31-32 | a slice of a text without boundaries has none |
| `Strings.NoLineBreakStrip` | scripts/config_parser.py:8 | stripping a text without boundaries gives one without boundaries |
| `Strings.IdentNoLineBreak` | scripts/gen_default_config.py:20 | an identifier holds no line boundary |
| `Strings.LinesUnbrokenConcat` | scripts/gen_default_config.py:94-108 | appending two lists of lines without boundaries gives one without boundaries |
| `GenDefaultConfig.ConfigHeader` | scripts/gen_default_config.py:20-22 | a `config` header yields an identifier symbol |
| `GenDefaultConfig.ChoiceHeader` | scripts/gen_default_config.py:47 | the `^\s*choice\b` test on the right-stripped line |
| `GenDefaultConfig.IsBoundary` | scripts/gen_default_config.py:27 | the block boundary test: the stripped line starts with `config`, `choice`, `menu`, `endmenu` or `endchoice` as a whole word |
| `GenDefaultConfig.DefaultText` | scripts/gen_default_config.py:29-31 | for a `default` line followed by whitespace, the text after that whitespace |
| `GenDefaultConfig.ChoiceDefaultName` | scripts/gen_default_config.py:52-54 | a choice `default` line yields an identifier symbol |
| `GenDefaultConfig.CleanDefault` | scripts/gen_default_config.py:31-32 | the stripped default is split into a part holding no `#` and a rest that is empty or starts at the first `#`; the result is the first part stripped, and holds no `#` |
| `GenDefaultConfig.Classify` | scripts/gen_default_config.py:36-43 | tagged `int` exactly when all digits and not double-quoted, `bool` exactly for `y`/`n`, both keeping the text; a double-quoted default loses its two quotes; any other default is a string with the `"` at both ends stripped |
| `GenDefaultConfig.Info` | scripts/gen_default_config.py:19-29 | what the scanner reads of a line: headers and chosen symbols are identifiers |
| `GenDefaultConfig.Infos` | scripts/gen_default_config.py:19-29 | one record per schema line |
| `GenDefaultConfig.InfosAt` | scripts/gen_default_config.py:19-29 | the record at position k is that of line k |
| `GenDefaultConfig.FirstStop` | scripts/gen_default_config.py:25-34 | the inner `config` loop stops at or after its start and at or before the end |
| `GenDefaultConfig.ConfigDefault` | scripts/gen_default_config.py:25-35 | the cleaned text of the first `default` line before the next boundary keyword, if any; it holds no `#` |
| `GenDefaultConfig.FirstStopSearch` | scripts/gen_default_config.py:25-34 | the inner `config` search stops at the first boundary or `default` line and at no earlier line |
| `GenDefaultConfig.ChoiceEnd` | scripts/gen_default_config.py:50-58 | the inner `choice` loop stops at or after its start and at or before the end |
| `GenDefaultConfig.ChosenFrom` | scripts/gen_default_config.py:50-58 | the `default IDENT` symbols of a choice block up to and including its `endchoice` line (`ChosenFromNames` states the set) |
| `GenDefaultConfig.ChoiceEndSearch` | scripts/gen_default_config.py:50-58 | the inner `choice` search stops at the first `endchoice` |
| `GenDefaultConfig.ChosenFromNames` | scripts/gen_default_config.py:50-58 | a symbol is collected exactly when a `default IDENT` line names it before the block's `endchoice` is passed |
| `GenDefaultConfig.Next` | scripts/gen_default_config.py:44-62 | every step of the outer loop moves forward, so the scan terminates |
| `GenDefaultConfig.ScanConfigBlock` | scripts/gen_default_config.py:23-34 | the inner loop returns the stopping index and the cleaned default of the block |
| `GenDefaultConfig.ScanChoiceBlock` | scripts/gen_default_config.py:49-58 | the inner loop returns the `endchoice` index and every chosen symbol |
| `GenDefaultConfig.ScanConfigStep` | scripts/gen_default_config.py:20-45 | at a `config` header the scan stores the classified default, if there is one, and resumes at the line that stopped the block |
| `GenDefaultConfig.ScanChoiceStep` | scripts/gen_default_config.py:47-60 | at a `choice` header the scan adds the block's defaults and resumes after `endchoice` |
| `GenDefaultConfig.ScanOtherStep` | scripts/gen_default_config.py:62 | every other line is passed over |
| `GenDefaultConfig.Scan` | scripts/gen_default_config.py:17-62 | the outer `while` loop as a recursion over the line index (`ScanConfigStep`, `ScanChoiceStep` and `ScanOtherStep` state each step) |
| `GenDefaultConfig.PostPass` | scripts/gen_default_config.py:64-70 | the choice post-pass over the scanned table (`PostPassSpec` states it) |
| `GenDefaultConfig.Forced` | scripts/gen_default_config.py:64-70 | a choice default's entry is a bool: its own when `configs` already holds a bool for it, `("bool", "y")` otherwise |
| `GenDefaultConfig.PostPassIs` | scripts/gen_default_config.py:64-70 | a table with the post-pass keys and values is the post-pass table |
| `GenDefaultConfig.SchemaDefaults` | scripts/gen_default_config.py:13-62 | the scan of the whole schema from line 0 with an empty table |
| `GenDefaultConfig.Kconfig` | scripts/gen_default_config.py:13-72 | `parse_kconfig`: the scan followed by the post-pass (`ChoiceDefaultsForced` states it) |
| `GenDefaultConfig.PostPassSpec` | scripts/gen_default_config.py:64-70 | the choice defaults become keys and bools, `y` unless already bools, and every other entry is kept |
| `GenDefaultConfig.ApplyChoiceDefaults` | scripts/gen_default_config.py:64-70 | the post-pass loop computes that table |
| `GenDefaultConfig.ChoiceDefaultsForced` | scripts/gen_default_config.py:64-72 | the schema table holds exactly the declared and the chosen symbols; a chosen symbol is a bool, `y` unless it was declared a bool; a declared symbol that is not chosen keeps its default |
| `GenDefaultConfig.ParseKconfig` | scripts/gen_default_config.py:13-72 | the index-driven scan and the post-pass return that table |
| `GenDefaultConfig.ValidateCpu` | scripts/gen_default_config.py:75-83 | the CPU rule keeps the key set |
| `GenDefaultConfig.CpuWarning` | scripts/gen_default_config.py:75-83 | at most one warning |
| `GenDefaultConfig.CpuWarningText` | scripts/gen_default_config.py:80 | the exact CPU warning text, with the rejected value |
| `GenDefaultConfig.ValidateRam` | scripts/gen_default_config.py:85-91 | the RAM rule keeps the key set |
| `GenDefaultConfig.RamWarning` | scripts/gen_default_config.py:85-91 | at most one warning |
| `GenDefaultConfig.RamWarningText` | scripts/gen_default_config.py:88 | the exact RAM warning text, with the rejected value in quotes |
| `GenDefaultConfig.CpuOk` | scripts/gen_default_config.py:78-79 | the CPU test: `int()` accepts the count and it is in 1..4 |
| `GenDefaultConfig.ParseIntTwo` | scripts/gen_default_config.py:81 | the reset count `2` parses as 2 |
| `GenDefaultConfig.ParseIntDigit` | scripts/gen_default_config.py:78 | a one-digit text parses as its digit |
| `GenDefaultConfig.ValidateCpuEntry` | scripts/gen_default_config.py:75-83 | the validated CPU entry is the one the CPU rule gives |
| `GenDefaultConfig.RamFormat` | scripts/gen_default_config.py:87 | the RAM pattern `^[1-9][0-9]*([MG])?$`, ignoring case |
| `GenDefaultConfig.RamWithUnitFormat` | scripts/gen_default_config.py:87-91 | a size with a unit matches the RAM pattern and is not changed by the rule that appends `M` |
| `GenDefaultConfig.OneGig` | scripts/gen_default_config.py:89 | the reset size `1G` has a unit |
| `GenDefaultConfig.AppendMWithUnit` | scripts/gen_default_config.py:90-91 | positive digits followed by `M` are a size with a unit |
| `GenDefaultConfig.Validate` | scripts/gen_default_config.py:74-91 | validation keeps the key set |
| `GenDefaultConfig.Warnings` | scripts/gen_default_config.py:80-88 | at most two warnings: the CPU rule's, then the RAM rule's on the table the CPU rule left |
| `GenDefaultConfig.ValidateCpuGuarantees` | scripts/gen_default_config.py:75-83 | afterwards the count is an integer in 1..4, unchanged when it already was one, and no other key changes |
| `GenDefaultConfig.ValidateRamGuarantees` | scripts/gen_default_config.py:85-91 | afterwards the size is digits with a unit, unchanged when it already had one, and no other key changes |
| `GenDefaultConfig.ValidateGuarantees` | scripts/gen_default_config.py:74-91 | both rules together: CPU in range, RAM with a unit, values already valid kept, every other key unchanged |
| `GenDefaultConfig.ValidateIdempotent` | scripts/gen_default_config.py:74-91 | validating again changes nothing and warns about nothing |
| `GenDefaultConfig.CpuParsed` | scripts/gen_default_config.py:77-81 | an integer count is kept when in 1..4, otherwise reset to `2` with exactly the warning text |
| `GenDefaultConfig.CpuUnparsed` | scripts/gen_default_config.py:82-83 | a count `int()` rejects is reset to `2` without a warning |
| `GenDefaultConfig.CpuExamples` | scripts/gen_default_config.py:75-83 | `0` and `5` are reset with a warning, `abc` is reset silently, `3` is kept |
| `GenDefaultConfig.RamExamples` | scripts/gen_default_config.py:85-91 | `512` becomes `512M`, `2G` is kept, `xyz` becomes `1G` with one more warning |
| `GenDefaultConfig.ValidateConfigs` | scripts/gen_default_config.py:74-91 | updates the table in place to its validated form and returns the warnings printed |
| `GenDefaultConfig.CheckCpu` | scripts/gen_default_config.py:75-83 | the CPU half, in place |
| `GenDefaultConfig.CheckRam` | scripts/gen_default_config.py:85-91 | the RAM half, in place |
| `GenDefaultConfig.ConfigTable.constructor` | scripts/gen_default_config.py:14 | the table object holds the given table |
| `GenDefaultConfig.HeaderLines` | scripts/gen_default_config.py:94-98 | the two header comments, naming the schema path, and an empty line |
| `GenDefaultConfig.Body` | scripts/gen_default_config.py:100-108 | the lines written for the symbols in the given order |
| `GenDefaultConfig.BodySnoc` | scripts/gen_default_config.py:100-108 | the lines for one more symbol follow those of the others |
| `GenDefaultConfig.OutLines` | scripts/gen_default_config.py:94-108 | `out_lines`: the header lines followed by the lines of the sorted symbols |
| `GenDefaultConfig.RenderEntry` | scripts/gen_default_config.py:101-108 | at most one line per symbol |
| `GenDefaultConfig.SortedKeys` | scripts/gen_default_config.py:100 | `sorted(keys)` is strictly increasing and holds exactly the keys |
| `GenDefaultConfig.SortedKeysFirst` | scripts/gen_default_config.py:100 | the least key comes first |
| `GenDefaultConfig.LeastUnique` | scripts/gen_default_config.py:100 | the least key is unique |
| `GenDefaultConfig.SortKeys` | scripts/gen_default_config.py:100 | the selection loop returns `sorted(keys)` |
| `GenDefaultConfig.WriteConfig` | scripts/gen_default_config.py:93-111 | the text written is the header followed by each symbol's line in sorted order, joined by newlines with a final newline |
| `GenDefaultConfig.Generate` | scripts/gen_default_config.py:126-129 | parse, validate, write: the output text and the warnings of the schema's validation |
| `GenDefaultConfig.Decoded` | scripts/gen_default_config.py:102-108 | an entry has a read-back value exactly when it is not a bool other than `y` |
| `GenDefaultConfig.Expected` | scripts/gen_default_config.py:102-108 | the keys read back are exactly the symbols with a read-back value |
| `GenDefaultConfig.LineDecodes` | scripts/gen_default_config.py:104-108 | a written `CONFIG_` line decodes to its symbol and the decoded value text |
| `GenDefaultConfig.RenderEntryDecodes` | scripts/gen_default_config.py:101-108 | a symbol gets a line exactly when it has a read-back value, and that line decodes to it |
| `GenDefaultConfig.CommentDecodes` | scripts/gen_default_config.py:95-96 | a `#` line decodes to nothing |
| `GenDefaultConfig.HeaderDecodes` | scripts/gen_default_config.py:94-98 | the three header lines decode to the empty map |
| `GenDefaultConfig.ExpectedOnSnoc` | scripts/gen_default_config.py:100-108 | one more symbol adds its read-back value, if it has one |
| `GenDefaultConfig.ExpectedOn` | scripts/gen_default_config.py:100-108 | the keys read back for a symbol sequence are exactly its symbols that are in the table and have a read-back value |
| `GenDefaultConfig.BodyDecodes` | scripts/gen_default_config.py:100-110 | header plus the lines for any symbol sequence decode to those symbols' read-back values |
| `GenDefaultConfig.ExpectedOnAll` | scripts/gen_default_config.py:100 | over a sequence of all the symbols, those read-back values are the whole table's |
| `GenDefaultConfig.RoundTrip` | scripts/gen_default_config.py:93-111 | `parse_config` reads back every int and string, every bool `y`, and nothing else, from the file written for a well-formed table |
| `GenDefaultConfig.InfosLike` | scripts/gen_default_config.py:19-29 | every header and chosen symbol the scanner sees is an identifier |
| `GenDefaultConfig.ChosenIdents` | scripts/gen_default_config.py:52-55 | a choice block collects only identifiers |
| `GenDefaultConfig.ClassifyWellFormed` | scripts/gen_default_config.py:36-43 | storing a classified default keeps the table well formed |
| `GenDefaultConfig.ScanWellFormed` | scripts/gen_default_config.py:18-62 | the scan keeps the table well formed and collects only identifiers |
| `GenDefaultConfig.PostPassWellFormed` | scripts/gen_default_config.py:64-70 | the post-pass keeps the table well formed |
| `GenDefaultConfig.KconfigWellFormed` | scripts/gen_default_config.py:13-72 | every schema table is well formed: identifier symbols, all-digit ints |
| `GenDefaultConfig.ValidateCpuWellFormed` | scripts/gen_default_config.py:81-83 | the CPU reset value keeps the table well formed |
| `GenDefaultConfig.ValidateRamWellFormed` | scripts/gen_default_config.py:89-91 | the RAM rule only writes strings |
| `GenDefaultConfig.ValidateWellFormed` | scripts/gen_default_config.py:74-91 | validation keeps the table well formed |
| `GenDefaultConfig.GenerateRoundTrip` | scripts/gen_default_config.py:126-129 | the generated file reads back as exactly the read-back values of the validated schema defaults |
| `GenDefaultConfig.InfoUnbroken` | scripts/gen_default_config.py:29-31 | a line without boundaries has a `default` text without boundaries |
| `GenDefaultConfig.InfosUnbroken` | scripts/gen_default_config.py:19-31 | schema lines without boundaries have `default` texts without boundaries |
| `GenDefaultConfig.CleanDefaultUnbroken` | scripts/gen_default_config.py:31-32 | cleaning a default without boundaries gives a text without boundaries |
| `GenDefaultConfig.EntryUnbroken` | scripts/gen_default_config.py:36-43 | classifying a default without boundaries stores a value without boundaries |
| `GenDefaultConfig.ClassifyUnbroken` | scripts/gen_default_config.py:31-43 | the value stored for a `default` text without boundaries has none |
| `GenDefaultConfig.ConfigDefaultUnbroken` | scripts/gen_default_config.py:29-43 | the value a `config` block stores has no boundary |
| `GenDefaultConfig.StoreUnbroken` | scripts/gen_default_config.py:37-43 | storing a value without boundaries keeps the table free of them |
| `GenDefaultConfig.ScanUnbroken` | scripts/gen_default_config.py:17-62 | the scan of lines without boundaries stores no value with a boundary |
| `GenDefaultConfig.ValidateUnbroken` | scripts/gen_default_config.py:74-91 | validation writes no value with a boundary |
| `GenDefaultConfig.KconfigUnbroken` | scripts/gen_default_config.py:126-128 | the validated table of lines split from the schema holds no value with a boundary |
| `GenDefaultConfig.RenderEntryUnbroken` | scripts/gen_default_config.py:101-108 | the line written for a symbol and a value without boundaries has none |
| `GenDefaultConfig.BodyUnbroken` | scripts/gen_default_config.py:100-108 | no line written for the symbols holds a boundary |
| `GenDefaultConfig.HeaderUnbroken` | scripts/gen_default_config.py:94-98 | the header lines hold no boundary when the schema path holds none |
| `GenDefaultConfig.OutLinesUnbroken` | scripts/gen_default_config.py:94-108 | no line written holds a boundary when the schema path holds none |
| `GenDefaultConfig.GenerateFileRoundTrip` | scripts/gen_default_config.py:126-129 | for any schema text and a path without boundaries, splitting the written text into lines and decoding it with `parse_config` gives exactly the read-back values of the validated schema defaults |
| `BuildMkqnximage.Texts` | scripts/build_mkqnximage.py:28-236 | one rendered word per option, in order |
| `BuildMkqnximage.OptName` | scripts/build_mkqnximage.py:28-236 | the spelling of each option after `--` |
| `BuildMkqnximage.Render` | scripts/build_mkqnximage.py:28-236 | the word appended for an option: `--name`, or `--name=value` when it has a value |
| `BuildMkqnximage.When` | scripts/build_mkqnximage.py:40-41 | a guarded append adds only the given option |
| `BuildMkqnximage.IfTrue` | scripts/build_mkqnximage.py:40-48 | a flag rule adds only its option |
| `BuildMkqnximage.IfNotTrue` | scripts/build_mkqnximage.py:92-93 | a negated flag rule adds only its option with `=no` |
| `BuildMkqnximage.Valued` | scripts/build_mkqnximage.py:129-131 | a valued rule adds only options of its name |
| `BuildMkqnximage.NonEmpty` | scripts/build_mkqnximage.py:42-44 | a non-empty rule adds only options of its name |
| `BuildMkqnximage.FirstMatch` | scripts/build_mkqnximage.py:51-57 | an `if`/`elif` chain over choice symbols: the mode of the first true member, or the baseline |
| `BuildMkqnximage.FirstMatchOne` | scripts/build_mkqnximage.py:34-36 | a one-member chain gives its mode when its symbol is true, else the baseline |
| `BuildMkqnximage.FirstMatchTwo` | scripts/build_mkqnximage.py:110-114 | a two-member chain tries its members in order |
| `BuildMkqnximage.FirstMatchThree` | scripts/build_mkqnximage.py:51-57 | a three-member chain tries its members in order |
| `BuildMkqnximage.Choice` | scripts/build_mkqnximage.py:51-59 | a choice rule adds only options of its name |
| `BuildMkqnximage.ZoneinfoValue` | scripts/build_mkqnximage.py:121-125 | `yes` when chosen, else the zoneinfo path when the key is present, else empty |
| `BuildMkqnximage.SizeNames` | scripts/build_mkqnximage.py:86 | the counted fields of the partition loop, in order |
| `BuildMkqnximage.PackageNames` | scripts/build_mkqnximage.py:206 | the packages of the package loop, in order |
| `BuildMkqnximage.PrologueArgs` | scripts/build_mkqnximage.py:28-37 | holds only `--force` and `--arch` |
| `BuildMkqnximage.BehaviorArgs` | scripts/build_mkqnximage.py:39-48 | holds only `--verbose`, `--assumed-ip`, `--clean` and `--noprompt` |
| `BuildMkqnximage.FsArgs` | scripts/build_mkqnximage.py:91-131 | holds only the eight FS & Integrity options |
| `BuildMkqnximage.UsersArgs` | scripts/build_mkqnximage.py:133-144 | holds only `--users`, `--ssh-ident` and `--sshd-pregen` |
| `BuildMkqnximage.NetworkArgs` | scripts/build_mkqnximage.py:146-158 | holds only `--ip`, `--hostname`, `--macaddr` and `--time-servers` |
| `BuildMkqnximage.ReposArgs` | scripts/build_mkqnximage.py:160-166 | holds only `--repos` and `--extra-dirs` |
| `BuildMkqnximage.SecurityArgs` | scripts/build_mkqnximage.py:168-203 | holds only the eight Security & TPM options |
| `BuildMkqnximage.PackageArgs` | scripts/build_mkqnximage.py:205-209 | holds only package options, of packages in the loop's list |
| `BuildMkqnximage.DiagnosticArgs` | scripts/build_mkqnximage.py:211-218 | holds only `--io-sock-diag`, `--sanitizers` and `--qh_config` |
| `BuildMkqnximage.HardwareArgs` | scripts/build_mkqnximage.py:220-227 | holds only `--usb`, `--graphics` and `--nfs` |
| `BuildMkqnximage.SystemArgs` | scripts/build_mkqnximage.py:229-235 | holds only `--root`, `--ablelock` and `--slm` |
| `BuildMkqnximage.FirstMatchWins` | scripts/build_mkqnximage.py:51-57 | in a choice group the first member whose symbol is true decides the mode |
| `BuildMkqnximage.FirstMatchBaseline` | scripts/build_mkqnximage.py:51-58 | with no member true the mode is the baseline |
| `BuildMkqnximage.CpuCount` | scripts/build_mkqnximage.py:62-65 | the count is in 1..4, and equals the input exactly when the input is in range |
| `BuildMkqnximage.RamSize` | scripts/build_mkqnximage.py:73-76 | the size matches the RAM format, and equals the input exactly when the input does |
| `BuildMkqnximage.RuntimeArgs` | scripts/build_mkqnximage.py:50-78 | fails exactly when `int_of` fails on `MKQNX_CPU`; otherwise holds only `--type`, `--cpu`, `--proc`, `--ram` |
| `BuildMkqnximage.SizeArgs` | scripts/build_mkqnximage.py:86-89 | holds only counted fields of the loop's names |
| `BuildMkqnximage.PartitionArgs` | scripts/build_mkqnximage.py:81-89 | holds only `--part-sizes` and counted fields |
| `BuildMkqnximage.Args` | scripts/build_mkqnximage.py:28-236 | fails exactly when the runtime or the partition heading fails |
| `BuildMkqnximage.Command` | scripts/build_mkqnximage.py:28-236 | succeeds exactly when the options do; the executable comes first, then one word per option |
| `BuildMkqnximage.TypeMode` | scripts/build_mkqnximage.py:51-57 | the `typ` chain computes the first-match mode |
| `BuildMkqnximage.QcfsMode` | scripts/build_mkqnximage.py:95-101 | the `qcfs` chain computes the first-match mode |
| `BuildMkqnximage.SecureDataMode` | scripts/build_mkqnximage.py:110-114 | the `secure_data` chain computes the first-match mode |
| `BuildMkqnximage.TcgMode` | scripts/build_mkqnximage.py:177-181 | the `tcg` chain computes the first-match mode |
| `BuildMkqnximage.SecpolMode` | scripts/build_mkqnximage.py:192-198 | the `secpol` chain computes the first-match mode |
| `BuildMkqnximage.ZoneinfoSetting` | scripts/build_mkqnximage.py:121-125 | the `zoneinfo` chain computes the zoneinfo value |
| `BuildMkqnximage.AppendIf` | scripts/build_mkqnximage.py:40-41 | one guarded `cmd.append`: the vector so far followed by the option exactly when the condition holds |
| `BuildMkqnximage.AppendIfTrue` | scripts/build_mkqnximage.py:40-48 | one flag append on the vector so far |
| `BuildMkqnximage.AppendIfNotTrue` | scripts/build_mkqnximage.py:92-93 | one negated flag append on the vector so far |
| `BuildMkqnximage.AppendNonEmpty` | scripts/build_mkqnximage.py:42-44 | one non-empty append on the vector so far |
| `BuildMkqnximage.AppendValued` | scripts/build_mkqnximage.py:129-131 | one valued append on the vector so far |
| `BuildMkqnximage.EmitPrologue` | scripts/build_mkqnximage.py:28-37 | appends `--force` and `--arch` |
| `BuildMkqnximage.EmitBehavior` | scripts/build_mkqnximage.py:39-48 | the Behavior appends |
| `BuildMkqnximage.EmitRuntime` | scripts/build_mkqnximage.py:50-78 | the Runtime appends, or the failure of `int_of` |
| `BuildMkqnximage.SizeArgsFailureStays` | scripts/build_mkqnximage.py:86-89 | the first `int_of` failure in the loop is the loop's result |
| `BuildMkqnximage.SizeArgsStep` | scripts/build_mkqnximage.py:86-89 | one more counted field: an earlier failure stays, a failing `int_of` fails, otherwise the option is appended when the count is positive |
| `BuildMkqnximage.EmitSizes` | scripts/build_mkqnximage.py:86-89 | the counted-field loop |
| `BuildMkqnximage.EmitPartitioning` | scripts/build_mkqnximage.py:81-89 | the Partitioning appends |
| `BuildMkqnximage.EmitFs` | scripts/build_mkqnximage.py:91-131 | the FS & Integrity appends |
| `BuildMkqnximage.EmitUsers` | scripts/build_mkqnximage.py:133-144 | the Users & SSH appends |
| `BuildMkqnximage.EmitNetwork` | scripts/build_mkqnximage.py:146-158 | the Networking appends |
| `BuildMkqnximage.EmitRepos` | scripts/build_mkqnximage.py:160-166 | the Repos & Extras appends |
| `BuildMkqnximage.EmitSecurity` | scripts/build_mkqnximage.py:168-203 | the Security & TPM appends |
| `BuildMkqnximage.EmitPackages` | scripts/build_mkqnximage.py:205-209 | the package loop |
| `BuildMkqnximage.EmitDiagnostics` | scripts/build_mkqnximage.py:211-218 | the Diagnostics appends |
| `BuildMkqnximage.EmitHardware` | scripts/build_mkqnximage.py:220-227 | the Hardware appends |
| `BuildMkqnximage.EmitSystem` | scripts/build_mkqnximage.py:229-235 | the System Flags appends |
| `BuildMkqnximage.RenderCommand` | scripts/build_mkqnximage.py:28-236 | the executable followed by each option's word |
| `BuildMkqnximage.BuildCommand` | scripts/build_mkqnximage.py:28-236 | the step-by-step construction returns the specified command, or the failing key |
| `BuildMkqnximage.ArgsSections` | scripts/build_mkqnximage.py:28-236 | a successful vector is the thirteen headings in source order |
| `BuildMkqnximage.ArchPriority` | scripts/build_mkqnximage.py:34-36 | aarch64le when chosen, else x86_64 |
| `BuildMkqnximage.TypePriority` | scripts/build_mkqnximage.py:51-57 | VMware, then VirtualBox, then QVM, else QEMU |
| `BuildMkqnximage.QcfsPriority` | scripts/build_mkqnximage.py:95-101 | LZ4HC, then Zstandard, then plain, else none |
| `BuildMkqnximage.SecureDataPriority` | scripts/build_mkqnximage.py:110-114 | nosuid before noexec, else none |
| `BuildMkqnximage.TcgPriority` | scripts/build_mkqnximage.py:177-181 | command line before plain, else none |
| `BuildMkqnximage.SecpolPriority` | scripts/build_mkqnximage.py:192-198 | develop, then open, then secure, else none |
| `BuildMkqnximage.InIfTrue` | scripts/build_mkqnximage.py:40-41 | a flag's option is there exactly when its symbol is true |
| `BuildMkqnximage.InIfNotTrue` | scripts/build_mkqnximage.py:92-93 | a negated flag's `=no` is there exactly when its symbol is not true |
| `BuildMkqnximage.InNonEmpty` | scripts/build_mkqnximage.py:42-44 | a field with empty fallback is there, carrying its text, exactly when the text is non-empty |
| `BuildMkqnximage.InValued` | scripts/build_mkqnximage.py:129-131 | a valued field is there, carrying its text, exactly when the text is non-empty and not the fallback |
| `BuildMkqnximage.InChoice` | scripts/build_mkqnximage.py:51-59 | a choice option is there, carrying the mode, exactly when the first-match mode is not the baseline |
| `BuildMkqnximage.ForceInPrologue` | scripts/build_mkqnximage.py:30-31 | `--force` is always there, without a value |
| `BuildMkqnximage.ArchInPrologue` | scripts/build_mkqnximage.py:33-37 | `--arch` is always there, aarch64le when chosen, else x86_64 |
| `BuildMkqnximage.VerboseInBehavior` | scripts/build_mkqnximage.py:40-41 | `--verbose=yes` exactly when set |
| `BuildMkqnximage.AssumedIpInBehavior` | scripts/build_mkqnximage.py:42-44 | `--assumed-ip` exactly when non-empty, with its text |
| `BuildMkqnximage.CleanInBehavior` | scripts/build_mkqnximage.py:45-46 | `--clean` exactly when set |
| `BuildMkqnximage.NopromptInBehavior` | scripts/build_mkqnximage.py:47-48 | `--noprompt` exactly when set |
| `BuildMkqnximage.TypeInRuntime` | scripts/build_mkqnximage.py:51-59 | `--type` exactly when the chosen type is not QEMU, with that type |
| `BuildMkqnximage.CpuInRuntime` | scripts/build_mkqnximage.py:62-67 | `--cpu` exactly when the range-checked count is not 2, with that count |
| `BuildMkqnximage.ProcInRuntime` | scripts/build_mkqnximage.py:69-71 | `--proc` exactly when non-empty, with its text |
| `BuildMkqnximage.RamInRuntime` | scripts/build_mkqnximage.py:73-78 | `--ram` exactly when the format-checked size is not `1G`, with that size |
| `BuildMkqnximage.RuntimeParts` | scripts/build_mkqnximage.py:50-78 | an option is in the Runtime heading exactly when one of its four rules emits it |
| `BuildMkqnximage.PartSizesInPartition` | scripts/build_mkqnximage.py:82-84 | `--part-sizes` exactly when the value is not `full`, with that value |
| `BuildMkqnximage.UnionInFs` | scripts/build_mkqnximage.py:92-93 | `--union=no` exactly when union is not set |
| `BuildMkqnximage.QcfsInFs` | scripts/build_mkqnximage.py:95-103 | `--qcfs` exactly when a compression is chosen, with the first chosen |
| `BuildMkqnximage.QtdInFs` | scripts/build_mkqnximage.py:105-106 | `--qtd=yes` exactly when set |
| `BuildMkqnximage.QtsafefsInFs` | scripts/build_mkqnximage.py:107-108 | `--qtsafefs=yes` exactly when set |
| `BuildMkqnximage.SecureDataInFs` | scripts/build_mkqnximage.py:110-116 | `--secure-data` exactly when a mount mode is chosen, with the first chosen |
| `BuildMkqnximage.PathtrustInFs` | scripts/build_mkqnximage.py:118-119 | `--pathtrust=yes` exactly when set |
| `BuildMkqnximage.ZoneinfoInFs` | scripts/build_mkqnximage.py:121-127 | `--zoneinfo` exactly when the zoneinfo value is non-empty and not `no`, with that value |
| `BuildMkqnximage.TzInFs` | scripts/build_mkqnximage.py:129-131 | `--tz` exactly when non-empty and not `UTC` |
| `BuildMkqnximage.UsersInUsers` | scripts/build_mkqnximage.py:134-136 | `--users` exactly when non-empty |
| `BuildMkqnximage.SshIdentInUsers` | scripts/build_mkqnximage.py:137-139 | `--ssh-ident` exactly when non-empty and not `prompt` |
| `BuildMkqnximage.SshdPregenInUsers` | scripts/build_mkqnximage.py:140-144 | `--sshd-pregen` exactly when the key is present, `yes` or `no` by its truth |
| `BuildMkqnximage.IpInNetwork` | scripts/build_mkqnximage.py:147-149 | `--ip` exactly when non-empty and not `dhcp` |
| `BuildMkqnximage.HostnameInNetwork` | scripts/build_mkqnximage.py:150-152 | `--hostname` exactly when non-empty |
| `BuildMkqnximage.MacaddrInNetwork` | scripts/build_mkqnximage.py:153-155 | `--macaddr` exactly when non-empty |
| `BuildMkqnximage.TimeServersInNetwork` | scripts/build_mkqnximage.py:156-158 | `--time-servers` exactly when non-empty and not `pool.ntp.org` |
| `BuildMkqnximage.ReposInRepos` | scripts/build_mkqnximage.py:161-163 | `--repos` exactly when non-empty |
| `BuildMkqnximage.ExtraDirsInRepos` | scripts/build_mkqnximage.py:164-166 | `--extra-dirs` exactly when non-empty |
| `BuildMkqnximage.AslrInSecurity` | scripts/build_mkqnximage.py:169-170 | `--aslr=no` exactly when ASLR is not set |
| `BuildMkqnximage.SecureProcfsInSecurity` | scripts/build_mkqnximage.py:172-173 | `--secure-procfs=yes` exactly when set |
| `BuildMkqnximage.CerticomInSecurity` | scripts/build_mkqnximage.py:174-175 | `--certicom=yes` exactly when set |
| `BuildMkqnximage.TcgInSecurity` | scripts/build_mkqnximage.py:177-183 | `--tcg` exactly when a TCG mode is chosen, with the first chosen |
| `BuildMkqnximage.CryptodevInSecurity` | scripts/build_mkqnximage.py:185-186 | `--cryptodev=yes` exactly when set |
| `BuildMkqnximage.PolicyInSecurity` | scripts/build_mkqnximage.py:188-190 | `--policy` exactly when non-empty and not `none` |
| `BuildMkqnximage.SecpolInSecurity` | scripts/build_mkqnximage.py:192-200 | `--secpol` exactly when a policy mode is chosen, with the first chosen |
| `BuildMkqnximage.QfimInSecurity` | scripts/build_mkqnximage.py:202-203 | `--qfim=yes` exactly when set |
| `BuildMkqnximage.IoSockDiagInDiagnostic` | scripts/build_mkqnximage.py:212-213 | `--io-sock-diag=yes` exactly when set |
| `BuildMkqnximage.SanitizersInDiagnostic` | scripts/build_mkqnximage.py:214-215 | `--sanitizers=yes` exactly when set |
| `BuildMkqnximage.QhConfigInDiagnostic` | scripts/build_mkqnximage.py:216-218 | `--qh_config` exactly when non-empty and not `no` |
| `BuildMkqnximage.UsbInHardware` | scripts/build_mkqnximage.py:221-222 | `--usb=no` exactly when USB is not set |
| `BuildMkqnximage.GraphicsInHardware` | scripts/build_mkqnximage.py:223-224 | `--graphics=yes` exactly when set |
| `BuildMkqnximage.NfsInHardware` | scripts/build_mkqnximage.py:225-227 | `--nfs` exactly when non-empty and not `no` |
| `BuildMkqnximage.RootInSystem` | scripts/build_mkqnximage.py:230-231 | `--root=yes` exactly when set |
| `BuildMkqnximage.AblelockInSystem` | scripts/build_mkqnximage.py:232-233 | `--ablelock=no` exactly when ablelock is not set |
| `BuildMkqnximage.SlmInSystem` | scripts/build_mkqnximage.py:234-235 | `--slm=yes` exactly when set |
| `BuildMkqnximage.SizeArgsHas` | scripts/build_mkqnximage.py:86-89 | in a successful loop every named field is an integer, and its option is there exactly when the integer is positive, with `str` of it |
| `BuildMkqnximage.SizeArgsSucceeds` | scripts/build_mkqnximage.py:86-89 | the loop succeeds exactly when every named field is an integer |
| `BuildMkqnximage.PartitionSucceeds` | scripts/build_mkqnximage.py:86-89 | the Partitioning heading succeeds exactly when all five counted fields are integers |
| `BuildMkqnximage.SizeInPartition` | scripts/build_mkqnximage.py:86-89 | a counted field's option is there exactly when its value is positive |
| `BuildMkqnximage.PackageArgsHas` | scripts/build_mkqnximage.py:206-209 | a package's `=yes` is there exactly when its symbol is set |
| `BuildMkqnximage.SizeSpelling` | scripts/build_mkqnximage.py:89 | a counted field's option is its suffix lowered, with `_` turned into `-` |
| `BuildMkqnximage.ArgsStart` | scripts/build_mkqnximage.py:28-37 | every successful vector starts with `--force` and `--arch` |
| `BuildMkqnximage.CommandStart` | scripts/build_mkqnximage.py:28-37 | every command starts with the executable, `--force` and the `--arch=` word |
| `BuildMkqnximage.SizeArgsEmpty` | scripts/build_mkqnximage.py:86-89 | with nothing configured the counted-field loop adds nothing |
| `BuildMkqnximage.PackageArgsEmpty` | scripts/build_mkqnximage.py:206-209 | with nothing configured no package is added |
| `BuildMkqnximage.EmptyPrologue` | scripts/build_mkqnximage.py:28-37 | an empty configuration gives `--force --arch=x86_64` |
| `BuildMkqnximage.EmptyRuntime` | scripts/build_mkqnximage.py:50-78 | an empty configuration gives no Runtime option |
| `BuildMkqnximage.EmptyPartition` | scripts/build_mkqnximage.py:81-89 | an empty configuration gives no Partitioning option |
| `BuildMkqnximage.EmptyFs` | scripts/build_mkqnximage.py:91-131 | an empty configuration gives only `--union=no` |
| `BuildMkqnximage.EmptySecurity` | scripts/build_mkqnximage.py:168-203 | an empty configuration gives only `--aslr=no` |
| `BuildMkqnximage.EmptyQuiet` | scripts/build_mkqnximage.py:39-166 | an empty configuration gives nothing under Behavior, Users, Networking and Repos |
| `BuildMkqnximage.EmptyDiagnostic` | scripts/build_mkqnximage.py:211-218 | an empty configuration gives no diagnostic option |
| `BuildMkqnximage.EmptyHardware` | scripts/build_mkqnximage.py:220-227 | an empty configuration gives only `--usb=no` |
| `BuildMkqnximage.EmptySystem` | scripts/build_mkqnximage.py:229-235 | an empty configuration gives only `--ablelock=no` |
| `BuildMkqnximage.EmptyRest` | scripts/build_mkqnximage.py:39-235 | the headings other than Prologue, Runtime, Partitioning, FS and Security, on an empty configuration |
| `BuildMkqnximage.EmptyArgs` | scripts/build_mkqnximage.py:28-235 | an empty configuration keeps every default and switches off the four options that are on by default |
| `BuildMkqnximage.EmptyWords` | scripts/build_mkqnximage.py:28-236 | the words of the six options of an empty configuration |
| `BuildMkqnximage.CommandTexts` | scripts/build_mkqnximage.py:28-236 | a successful command is the executable followed by the words of the vector |
| `BuildMkqnximage.EmptyCommand` | scripts/build_mkqnximage.py:28-236 | an empty configuration runs `mkqnximage --force --arch=x86_64 --union=no --aslr=no --usb=no --ablelock=no` |
| `EditUsers.Entry` | scripts/edit_users.py:60-64 | a segment splits at its first `/`: the name holds no `/`, the password is absent exactly when there is no `/`, and name, `/`, password rebuild the segment |
| `EditUsers.ValidName` | scripts/edit_users.py:22 | `USERNAME_RE`: a non-empty text of letters, digits, `_` and `-` |
| `EditUsers.Part` | scripts/edit_users.py:44-47 | the segment of one entry: the name, then `/` and the password unless it is none or empty |
| `EditUsers.Parts` | scripts/edit_users.py:40-47 | at most one segment per entry |
| `EditUsers.Encode` | scripts/edit_users.py:32-48 | `render_users_to_string`: the segments joined by `:` (`RoundTrip` states its inverse) |
| `EditUsers.Entries` | scripts/edit_users.py:57-65 | at most one entry per segment |
| `EditUsers.Decode` | scripts/edit_users.py:50-65 | `parse_users_from_string`: the entries of the `:` segments (`EncodeDecode` states its inverse) |
| `EditUsers.RenderUsers` | scripts/edit_users.py:32-48 | the loop returns the encoded string |
| `EditUsers.ParseUsers` | scripts/edit_users.py:50-65 | the loop returns the decoded entries |
| `EditUsers.EntriesShape` | scripts/edit_users.py:57-65 | decoded names hold neither `:` nor `/`, passwords hold no `:`, and no entry is made of nothing |
| `EditUsers.DecodeShape` | scripts/edit_users.py:50-65 | the same, for any string |
| `EditUsers.EntryOfPart` | scripts/edit_users.py:41-64 | a storable entry's part is a non-empty segment that decodes to the entry, with empty passwords read as none |
| `EditUsers.EntriesOfParts` | scripts/edit_users.py:40-65 | storable entries have one part each, and the parts decode back to them |
| `EditUsers.RoundTrip` | scripts/edit_users.py:32-65 | decoding the encoding of storable entries gives them back, with empty passwords read as none |
| `EditUsers.PartOfEntry` | scripts/edit_users.py:44-64 | a canonic segment is reproduced by encoding its entry |
| `EditUsers.PartsOfEntries` | scripts/edit_users.py:40-65 | canonic segments are reproduced by encoding their entries |
| `EditUsers.EncodeDecode` | scripts/edit_users.py:32-65 | encoding the decoding of a string of canonic segments gives it back |
| `EditUsers.StoredPassword` | scripts/edit_users.py:111-113 | nothing typed is stored as no password; otherwise the typed text |
| `EditUsers.ChosenName` | scripts/edit_users.py:102-110 | a name the prompt settles on is valid |
| `EditUsers.FirstFalse` | scripts/edit_users.py:102-110 | the first answer not asked again after, or the count of answers when there is none |
| `EditUsers.BeforeFirstFalse` | scripts/edit_users.py:102-110 | every answer before that one is asked again after |
| `EditUsers.Verdicts` | scripts/edit_users.py:102-109 | for each answer, whether the prompt asks again after it |
| `EditUsers.FirstKept` | scripts/edit_users.py:102-110 | the first answer the prompt does not ask again after |
| `EditUsers.BeforeFirstKept` | scripts/edit_users.py:102-110 | every answer before it is asked again after |
| `EditUsers.FirstKeptStep` | scripts/edit_users.py:102-110 | the first kept answer is the first one unless that one is asked again after |
| `EditUsers.ChosenNameIsFirst` | scripts/edit_users.py:102-110 | the chosen name is the first kept answer, stripped, unless it is empty (a cancel) or the answers run out |
| `EditUsers.Added` | scripts/edit_users.py:101-115 | with a chosen name, the list gains exactly one entry, at the end, with that valid name and the stored password; otherwise it is unchanged |
| `EditUsers.EditedPassword` | scripts/edit_users.py:133-136 | nothing typed keeps the current password; otherwise the typed one |
| `EditUsers.EditedName` | scripts/edit_users.py:123 | the new name: the typed answer, or the current name when nothing is typed, stripped |
| `EditUsers.Edited` | scripts/edit_users.py:117-138 | the length is kept and only entry idx can change; nothing changes unless the index and the new name are valid; the new password is the edited one |
| `EditUsers.ConfirmedExactly` | scripts/edit_users.py:152-153 | only `y` and `Y` confirm, once surrounding whitespace is stripped |
| `EditUsers.Confirmed` | scripts/edit_users.py:152-153 | the answer, stripped and lowered, is `y` |
| `EditUsers.Deleted` | scripts/edit_users.py:147-157 | with a valid index and a confirmation exactly entry idx goes and the others keep their order; otherwise nothing changes |
| `EditUsers.Moved` | scripts/edit_users.py:159-165 | a permutation of the list; when the indices are valid the entry lands at its landing position; otherwise nothing changes |
| `EditUsers.Landing` | scripts/edit_users.py:163-164 | where `insert` puts the popped entry: `dst`, or the last position when `dst` is the old length; a valid position for valid indices |
| `EditUsers.MovedShape` | scripts/edit_users.py:163-164 | the entry is removed and inserted at the landing position of the shorter list |
| `EditUsers.MovedKeepsOthers` | scripts/edit_users.py:159-165 | without the moved entry, the list is the old list without it: the others keep their order |
| `EditUsers.MovedToEnd` | scripts/edit_users.py:159-165 | moving to the last position or one past it appends the entry after the others |
| `EditUsers.UserList.constructor` | scripts/edit_users.py:245 | the list holds the entries read from the file |
| `EditUsers.UserList.AddUser` | scripts/edit_users.py:101-115 | reports an addition exactly when a name is chosen, and updates the list to the added list |
| `EditUsers.UserList.EditUser` | scripts/edit_users.py:117-138 | reports an edit exactly when the edit applies, and updates the list to the edited list |
| `EditUsers.UserList.DeleteUser` | scripts/edit_users.py:147-157 | reports a deletion exactly for a valid index and a confirmation, and updates the list to the deleted list |
| `EditUsers.UserList.MoveUser` | scripts/edit_users.py:159-165 | reports a move exactly when the indices are valid, and updates the list to the moved list |
| `EditUsers.IsUsersLine` | scripts/edit_users.py:174 | the `^\s*CONFIG_MKQNX_USERS=` test |
| `EditUsers.UsersLine` | scripts/edit_users.py:169-170 | `new_line`: `CONFIG_MKQNX_USERS=` and the encoded list in double quotes |
| `EditUsers.ReplacedSnoc` | scripts/edit_users.py:173-178 | one more line adds the new line when it matches and the line itself otherwise |
| `EditUsers.HasUsersLineSnoc` | scripts/edit_users.py:173-176 | `found` after one more line: found before, or the line matches |
| `EditUsers.Replaced` | scripts/edit_users.py:173-178 | same length; every matching line becomes the new line and every other line is kept |
| `EditUsers.Patched` | scripts/edit_users.py:171-180 | the replaced lines, plus the new line appended exactly when no line matched; the new line is always there |
| `EditUsers.SaveUsers` | scripts/edit_users.py:167-181 | the loop returns the patched lines carrying the encoded list |
| `EditUsers.SavedLineDecodes` | scripts/edit_users.py:169-170 | the saved line reads back, through `parse_config`, as `MKQNX_USERS` and the encoded list |
| `EditUsers.DefinesUsersLine` | scripts/edit_users.py:174 | a line `parse_config` reads as `MKQNX_USERS` is one the save replaces |
| `EditUsers.UsersKeyIsIdent` | scripts/config_parser.py:11 | `MKQNX_USERS` matches the name group of the line pattern |
| `EditUsers.PatchedDefines` | scripts/edit_users.py:173-180 | in the saved file every line defining `MKQNX_USERS` is the new line |
| `EditUsers.SavedUsersReadBack` | scripts/edit_users.py:167-181 | after saving, `parse_config` reads the encoded list under `MKQNX_USERS`, whatever the file held before |
| `EditUsers.ReadConfigLines` | scripts/edit_users.py:24-27 | the lines of the file hold no line boundary, and a missing file gives no lines |
| `EditUsers.WriteThenRead` | scripts/edit_users.py:24-30 | reading back what is written for a non-empty list of lines without boundaries gives those lines; writing no lines gives one empty line |
| `EditUsers.PartsNoLineBreak` | scripts/edit_users.py:40-47 | the segments of entries without boundaries have none |
| `EditUsers.UsersLineNoLineBreak` | scripts/edit_users.py:169-170 | the new line for entries without boundaries has none |
| `EditUsers.PatchedNoLineBreak` | scripts/edit_users.py:171-180 | patching lines without boundaries with a line without boundaries keeps every line free of them |
| `EditUsers.SaveThenLoad` | scripts/edit_users.py:243-245 | for any file, or none, and storable entries without line boundaries: saving them, writing the lines as text, then reading the text back with `splitlines()`, `parse_config` and `parse_users_from_string` gives the entries back in order, with empty passwords read as none |

## Left out

- File and process I/O is not modelled:
  - reading and writing `.config` and the schema, which become a text
    passed in and a text returned (an absent `.config` is `None`); the
    text is split with `splitlines()` and written with
    `"\n".join(...) + "\n"`, and both are modelled;
  - `require_config` and its call of the generator;
  - `shutil.which`;
  - the `subprocess` call and its exit code;
  - `sys.exit` with usage messages.
- The argument vector is modelled, but printing it with `shlex.quote` is not.
- Interaction is replaced by parameters:
  - `input`, `getpass` and `input_with_default` become the answers given as
    arguments;
  - `show_menu`, `show_password` and the `process_actions` dispatch loop are
    not modelled, since they only read and print.
  - The edits they dispatch to are modelled.
- The warnings `build_mkqnximage.py` prints to stderr for an out-of-range
  CPU count or a malformed RAM size are not modelled. The corrected values
  are.
- The messages the editor prints (`Added.`, `Invalid index.`, ...) are not
  modelled. The methods report with a boolean whether they acted.
- EditUsers.ChosenName: when the answers run out before a valid or empty
  one, Python raises `EOFError`. The model treats that as no addition.
- Strings.ParseInt: models `int()` as surrounding whitespace, an optional
  sign and ASCII digits. Underscores between digits and non-ASCII decimal
  digits, which Python also accepts, are not modelled.
- Strings.Lower: models `str.lower()` on ASCII letters only.
- Strings.IsWordChar: the `\b` word boundary of the schema patterns is taken
  over ASCII word characters, not Unicode ones.
- The `$` of the line patterns also matching before a trailing newline is not
  modelled. Every line comes from `splitlines()` and holds no newline.
- BuildMkqnximage.Args: no single lemma states the membership of every
  option in the whole vector. Membership is stated per heading, by the
  `<Option>In<Heading>` lemmas. `ArgsSections` states that a successful
  vector is exactly those headings in order, and each heading's function
  ensures that it holds only its own options.
- In `main` of `build_mkqnximage.py`, an `int_of` that raises ends the
  script. The model returns a failure carrying the key.
- EditUsers.SaveThenLoad: promised only for entries whose name and
  password hold no `splitlines()` boundary. A password holding `\r`, `\v`,
  `\f`, `\x1c`-`\x1e`, `\x85`, `\u2028` or `\u2029`, which `getpass`
  accepts, splits the saved users line in two when the file is read again,
  and the list does not come back.
- GenDefaultConfig.GenerateFileRoundTrip: promised only for a schema path
  without a line boundary. Such a boundary would split the first header
  comment, and its second half would be read as a line of its own.
