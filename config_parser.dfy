/** The flat `.config` file: decoding `CONFIG_<NAME>=<value>` lines into a
    sparse map of booleans and strings, and the three typed accessors the
    other scripts read that map through. */
module ConfigParser {
  import opened Wrappers
  import opened Strings

  /** A decoded value. `y` and `n` become booleans; anything else stays text
      (integers are parsed later, on access). */
  datatype Val = B(b: bool) | S(s: string)

  /** The decoded configuration: absent keys mean "use the field's fallback". */
  type Config = map<string, Val>

  /** `[A-Za-z0-9_]+`. */
  predicate IsIdent(s: string)
  {
    |s| > 0 && IdentChars(s)
  }

  /** `re.match(r'^CONFIG_([A-Za-z0-9_]+)=(.*)$', ln)`: the name after the
      prefix and the text after the `=`. */
  function MatchLine(ln: string): (r: Option<(string, string)>)
    ensures r.Some? ==> IsIdent(r.value.0) && ln == "CONFIG_" + r.value.0 + "=" + r.value.1
  {
    if StartsWith(ln, "CONFIG_") then
      var rest := ln[7..];
      var n := IdentLen(rest);
      if 0 < n < |rest| && rest[n] == '=' then
        assert ln == "CONFIG_" + rest[..n] + "=" + rest[n + 1..];
        Some((rest[..n], rest[n + 1..]))
      else None
    else None
  }

  /** Every line of the `CONFIG_<NAME>=<text>` shape is matched, and split at
      the end of the name. */
  lemma {:induction false} MatchLineComplete(name: string, text: string)
    requires IsIdent(name)
    ensures MatchLine("CONFIG_" + name + "=" + text) == Some((name, text))
  {
    var ln := "CONFIG_" + name + "=" + text;
    assert ln[..7] == "CONFIG_";
    var rest := ln[7..];
    assert rest == name + ("=" + text);
    IdentLenOfIdent(name, "=" + text);
    assert rest[|name|] == '=';
    assert rest[..|name|] == name && rest[|name| + 1..] == text;
    assert StartsWith(ln, "CONFIG_") && IdentLen(rest) == |name| && 0 < |name| < |rest|;
  }

  lemma {:induction false} IdentLenOfIdent(name: string, tail: string)
    requires IsIdent(name)
    requires |tail| > 0 && !IsIdentChar(tail[0])
    ensures IdentLen(name + tail) == |name|
    decreases |name|
  {
    var s := name + tail;
    if |name| > 1 {
      assert s[1..] == name[1..] + tail;
      IdentLenOfIdent(name[1..], tail);
    } else {
      assert s[1..] == tail;
    }
  }

  /** `"text"` or `'text'` after stripping, as Python's `startswith`/`endswith`
      test it (a lone quote character counts as both). */
  predicate IsQuoted(v: string)
  {
    |v| >= 1 && ((v[0] == '"' && v[|v| - 1] == '"') || (v[0] == '\'' && v[|v| - 1] == '\''))
  }

  /** The value text after the `=`: `y`, `n`, a quoted string or raw text. */
  function DecodeValue(raw: string): (r: Val)
    ensures r.B? <==> Strip(raw) == "y" || Strip(raw) == "n"
    ensures r == B(true) <==> Strip(raw) == "y"
    ensures r.S? && IsQuoted(Strip(raw)) && |Strip(raw)| == 1 ==> r.s == ""
    ensures r.S? && IsQuoted(Strip(raw)) && |Strip(raw)| >= 2 ==>
      Strip(raw) == [Strip(raw)[0]] + r.s + [Strip(raw)[0]]
    ensures r.S? && !IsQuoted(Strip(raw)) ==> r.s == Strip(raw)
  {
    var v := Strip(raw);
    if v == "y" then B(true)
    else if v == "n" then B(false)
    else if IsQuoted(v) then
      if |v| >= 2 then
        Unwrap(v);
        S(v[1..|v| - 1])
      else S("")
    else S(v)
  }

  /** Text without surrounding whitespace that starts with neither a quote
      nor `y`/`n` decodes to itself. */
  lemma DecodePlain(v: string)
    requires |v| > 0 && !IsSpace(v[0]) && !IsSpace(v[|v| - 1])
    requires v[0] != 'y' && v[0] != 'n' && v[0] != '"' && v[0] != '\''
    ensures DecodeValue(v) == S(v)
  {
    StripUnspaced(v);
    assert v != "y" && v != "n";
  }

  /** Text between a pair of matching quotes, double or single, decodes to
      that text. */
  lemma DecodeQuoted(q: char, v: string)
    requires q == '"' || q == '\''
    ensures DecodeValue([q] + v + [q]) == S(v)
  {
    var t := [q] + v + [q];
    Wrapped(q, v);
    StripUnspaced(t);
    DecodeStrippedQuoted(t);
  }

  /** A quoted text that is its own strip decodes to what lies between the
      quotes. */
  lemma DecodeStrippedQuoted(t: string)
    requires Strip(t) == t && IsQuoted(t) && |t| >= 2
    ensures DecodeValue(t) == S(t[1..|t| - 1])
  {
    NotYesNo(t);
  }

  /** A lone quote character counts as both opening and closing, and
      decodes to the empty text. */
  lemma DecodeLoneQuote(q: char)
    requires q == '"' || q == '\''
    ensures DecodeValue([q]) == S("")
  {
    StripUnspaced([q]);
  }

  /** One line of the file: a key and its value, or nothing for blank lines,
      comments and lines of any other shape. */
  function DecodeLine(line: string): (r: Option<(string, Val)>)
    ensures r.Some? <==> var ln := Strip(line); ln != "" && ln[0] != '#' && MatchLine(ln).Some?
    ensures r.Some? ==> IsIdent(r.value.0)
  {
    var ln := Strip(line);
    if ln == "" || ln[0] == '#' then None
    else
      match MatchLine(ln)
      case None => None
      case Some((key, raw)) => Some((key, DecodeValue(raw)))
  }

  /** The decoded form of every line, in file order. */
  function Entries(lines: seq<string>): (r: seq<Option<(string, Val)>>)
    ensures |r| == |lines| && forall i :: 0 <= i < |lines| ==> r[i] == DecodeLine(lines[i])
  {
    seq(|lines|, i requires 0 <= i < |lines| => DecodeLine(lines[i]))
  }

  /** The entries stored one after another into a map, later ones replacing
      earlier ones. */
  function Collect(entries: seq<Option<(string, Val)>>): Config
  {
    if |entries| == 0 then map[]
    else
      var cfg := Collect(entries[..|entries| - 1]);
      match entries[|entries| - 1]
      case None => cfg
      case Some((key, v)) => cfg[key := v]
  }

  /** The map `parse_config` returns for a file of these lines. */
  function Decode(lines: seq<string>): Config
  {
    Collect(Entries(lines))
  }

  lemma EntriesSnoc(lines: seq<string>, line: string)
    ensures Entries(lines + [line]) == Entries(lines) + [DecodeLine(line)]
  {
  }

  lemma EntriesAppend(a: seq<string>, b: seq<string>)
    ensures Entries(a + b) == Entries(a) + Entries(b)
  {
  }

  /** Decoding one more line stores what that line decodes to, if anything. */
  lemma DecodeSnoc(lines: seq<string>, line: string)
    ensures Decode(lines + [line]) == match DecodeLine(line)
                                      case None => Decode(lines)
                                      case Some((key, v)) => Decode(lines)[key := v]
  {
    var e := Entries(lines + [line]);
    EntriesSnoc(lines, line);
    assert e[..|e| - 1] == Entries(lines);
  }

  /** `parse_config`: the lines are decoded in file order and a later line
      for a key replaces an earlier one. Each line's test and decoding is
      `DecodeLine`. */
  method ParseConfig(lines: seq<string>) returns (cfg: Config)
    ensures cfg == Decode(lines)
  {
    cfg := map[];
    for i := 0 to |lines|
      invariant cfg == Decode(lines[..i])
    {
      var e := DecodeLine(lines[i]);
      DecodeStep(lines, i, e);
      if e.Some? {
        cfg := cfg[e.value.0 := e.value.1];
      }
    }
    assert lines[..|lines|] == lines;
  }

  /** The map after line `i` is the map before it, updated by what line `i`
      decodes to. */
  lemma DecodeStep(lines: seq<string>, i: nat, e: Option<(string, Val)>)
    requires i < |lines| && e == DecodeLine(lines[i])
    ensures Decode(lines[..i + 1]) == if e.Some? then Decode(lines[..i])[e.value.0 := e.value.1] else Decode(lines[..i])
  {
    var pre := lines[..i];
    TakeOneMore(lines, i);
    EntriesSnoc(pre, lines[i]);
    CollectSnoc(Entries(pre), e);
  }

  lemma CollectSnoc(entries: seq<Option<(string, Val)>>, e: Option<(string, Val)>)
    ensures Collect(entries + [e]) == if e.Some? then Collect(entries)[e.value.0 := e.value.1] else Collect(entries)
  {
    assert (entries + [e])[..|entries|] == entries;
  }

  /** Entry `e` stores `key`. */
  predicate Stores(e: Option<(string, Val)>, key: string)
  {
    e.Some? && e.value.0 == key
  }

  lemma {:induction false} CollectKeys(entries: seq<Option<(string, Val)>>, key: string)
    ensures key in Collect(entries) <==> exists i :: 0 <= i < |entries| && Stores(entries[i], key)
    decreases |entries|
  {
    if |entries| > 0 {
      var n := |entries| - 1;
      var init := entries[..n];
      CollectKeys(init, key);
      if Stores(entries[n], key) {
        assert key in Collect(entries);
      } else {
        assert key in Collect(entries) <==> key in Collect(init);
        forall i | 0 <= i < n
          ensures entries[i] == init[i]
        {
        }
      }
    }
  }

  lemma {:induction false} CollectLastWins(entries: seq<Option<(string, Val)>>, key: string)
    requires key in Collect(entries)
    ensures exists i :: (0 <= i < |entries| && entries[i] == Some((key, Collect(entries)[key]))
                         && forall j :: i < j < |entries| ==> !Stores(entries[j], key))
    decreases |entries|
  {
    var n := |entries| - 1;
    var init := entries[..n];
    if Stores(entries[n], key) {
      assert entries[n] == Some((key, Collect(entries)[key]));
    } else {
      assert key in Collect(init) && Collect(entries)[key] == Collect(init)[key];
      CollectLastWins(init, key);
      var i :| 0 <= i < |init| && init[i] == Some((key, Collect(init)[key]))
        && (forall j :: i < j < |init| ==> !Stores(init[j], key));
      assert entries[i] == init[i];
      forall j | i < j < |entries|
        ensures !Stores(entries[j], key)
      {
        if j < n {
          assert entries[j] == init[j];
        }
      }
    }
  }

  /** The line defines `key`. */
  predicate Defines(line: string, key: string)
  {
    DecodeLine(line).Some? && DecodeLine(line).value.0 == key
  }

  /** A key is present after decoding exactly when some line defines it. */
  lemma DecodeKeys(lines: seq<string>, key: string)
    ensures key in Decode(lines) <==> exists i :: 0 <= i < |lines| && Defines(lines[i], key)
  {
    var e := Entries(lines);
    CollectKeys(e, key);
    assert forall i :: 0 <= i < |lines| ==> (Stores(e[i], key) <==> Defines(lines[i], key));
  }

  /** The value of a present key is the one decoded from the last line that
      defines it. */
  lemma DecodeLastWins(lines: seq<string>, key: string)
    requires key in Decode(lines)
    ensures exists i :: (0 <= i < |lines| && DecodeLine(lines[i]) == Some((key, Decode(lines)[key]))
                         && forall j :: i < j < |lines| ==> !Defines(lines[j], key))
  {
    var e := Entries(lines);
    CollectLastWins(e, key);
    var i :| 0 <= i < |e| && e[i] == Some((key, Collect(e)[key]))
      && (forall j :: i < j < |e| ==> !Stores(e[j], key));
    assert forall j :: 0 <= j < |lines| ==> (Stores(e[j], key) <==> Defines(lines[j], key));
    assert DecodeLine(lines[i]) == Some((key, Decode(lines)[key]));
  }

  /** `bool_of`: Python truthiness of the stored value, false when absent. */
  function BoolOf(cfg: Config, k: string): (r: bool)
    ensures k !in cfg ==> !r
    ensures k in cfg ==> (r <==> cfg[k] != B(false) && cfg[k] != S(""))
  {
    if k !in cfg then false
    else match cfg[k]
      case B(b) => b
      case S(s) => s != ""
  }

  /** `str_of`: the fallback when absent, text unchanged, booleans as
      Python prints them. */
  function StrOf(cfg: Config, k: string, fallback: string): (r: string)
    ensures k !in cfg ==> r == fallback
    ensures k in cfg && cfg[k].S? ==> r == cfg[k].s
    ensures k in cfg && cfg[k].B? ==> r == (if cfg[k].b then "True" else "False")
  {
    if k !in cfg then fallback
    else match cfg[k]
      case B(b) => if b then "True" else "False"
      case S(s) => s
  }

  /** `int("True")` and `int("False")` both raise. */
  lemma ParseIntRejectsBool(b: bool)
    ensures ParseInt(if b then "True" else "False") == None
  {
    var s := if b then "True" else "False";
    assert s[0] == 'T' || s[0] == 'F';
    assert s[|s| - 1] == 'e';
    ParseIntNonNumeric(s);
  }

  /** `int_of`: `int(str_of(cfg, k, str(fallback)))`; a value `int()` rejects
      is an error carrying the key. */
  function IntOf(cfg: Config, k: string, fallback: int): (r: Result<int, string>)
    ensures k !in cfg ==> r == Success(fallback)
    ensures k in cfg && cfg[k].B? ==> r == Failure(k)
    ensures k in cfg && cfg[k].S? ==>
      (r.Success? <==> ParseInt(cfg[k].s).Some?) && (r.Success? ==> Some(r.value) == ParseInt(cfg[k].s))
  {
    ParseIntOfIntToString(fallback);
    ParseIntRejectsBool(true);
    ParseIntRejectsBool(false);
    match ParseInt(StrOf(cfg, k, IntToString(fallback)))
    case Some(n) => Success(n)
    case None => Failure(k)
  }

  // Proof steps for the verifier, modelling nothing of the source: facts
  // about sequences stated on their own so that proofs above stay small.

  lemma TakeOneMore<T>(s: seq<T>, i: nat)
    requires i < |s|
    ensures s[..i + 1] == s[..i] + [s[i]]
  {
  }

  lemma Unwrap<T>(v: seq<T>)
    requires |v| >= 2 && v[0] == v[|v| - 1]
    ensures v == [v[0]] + v[1..|v| - 1] + [v[0]]
  {
  }

  lemma Wrapped<T>(q: T, v: seq<T>)
    ensures |[q] + v + [q]| == |v| + 2
    ensures ([q] + v + [q])[0] == q && ([q] + v + [q])[|v| + 1] == q
    ensures ([q] + v + [q])[1..|v| + 1] == v
  {
  }

  lemma NotYesNo(t: string)
    requires |t| >= 2
    ensures t != "y" && t != "n"
  {
    assert |t| != |"y"|;
  }
}
